/** The correction loop through the ERP file: append the drafted rows, import everything again, reconcile again. */
module CorrectionImport {
  import opened Events
  import opened Selection
  import opened Context
  import opened SettlementRule
  import opened Pipeline
  import opened Renaming
  import opened Ledger
  import opened ErpImport
  import opened Rerun
  import opened CorrectionRun
  import opened ErpReimport

  /** The stored rows of a run: those of the other files, and those read from its ERP file. */
  function StoredEvents(others: seq<Event>, erp: seq<FileRow>, runId: string, entity: string): seq<Event> {
    others + ReadEvents(erp, runId, entity)
  }

  /** What the loop is given: a run with a valid ERP file, a settlement whose exception is filed as a missing
      posting, and a drafted journal whose texts and amounts survive the file. */
  ghost predicate CorrectableFile(others: seq<Event>, erp: seq<FileRow>, runId: string, policy: Policy, i: nat, slip: Slip) {
    var events := StoredEvents(others, erp, runId, slip.entity);
    && NumberedFile(erp) && IsValid(erp, runId, slip.entity)
    && Correctable(events, policy, i, slip) && BatchOf(events, policy).value.runId == runId
    && Postable(DraftOf(events, policy, i, slip), slip)
  }

  /** The rows that the correction appends to the ERP file. */
  ghost function Appended(others: seq<Event>, erp: seq<FileRow>, runId: string, policy: Policy, i: nat, slip: Slip): seq<ErpRow>
    requires CorrectableFile(others, erp, runId, policy, i, slip)
  {
    RowsFor(DraftOf(StoredEvents(others, erp, runId, slip.entity), policy, i, slip), slip)
  }

  /** Where every stored row is found again: the other files under the given lineages, the ERP rows in the new file. */
  function Again(others: seq<Event>, erp: seq<FileRow>, runId: string, slip: Slip, lineages: map<string, Lineage>, file: seq<FileRow>): Renaming
    requires |ReadEvents(erp, runId, slip.entity)| <= |file|
  {
    Reimport(runId, StoredEvents(others, erp, runId, slip.entity), slip.runId,
             lineages + FileLineages(ReadEvents(erp, runId, slip.entity), file))
  }

  /** What the corrected run imports: the other files as before, and the corrected ERP file as it is read. */
  function Imported(others: seq<Event>, erp: seq<FileRow>, runId: string, slip: Slip, lineages: map<string, Lineage>, file: seq<FileRow>): seq<Event>
    requires |ReadEvents(erp, runId, slip.entity)| <= |file|
  {
    RenameAll(Again(others, erp, runId, slip, lineages, file), others) + ReadEvents(file, slip.runId, slip.entity)
  }

  // ---- what is read -------------------------------------------------------------------------

  lemma {:induction false} FreshInFile(others: seq<Event>, erp: seq<FileRow>, runId: string, slip: Slip)
    requires NumberedFile(erp) && IsValid(erp, runId, slip.entity)
    requires FreshJournal(StoredEvents(others, erp, runId, slip.entity), slip.journalId)
    ensures AllReadable(erp) && NotYetPosted(erp, slip.journalId)
  {
    ValidFileEvents(erp, runId, slip.entity);
    var events := ReadEvents(erp, runId, slip.entity);
    hide ParseRow, IsValid, ReadEvents, JournalId, RecordId, EventId;
    forall i | 0 <= i < |erp| ensures ParseRow(erp[i].cells).value.journalId != slip.journalId {
      assert events[i] in StoredEvents(others, erp, runId, slip.entity) && events[i].source == Erp;
      JournalOfRecord(ParseRow(erp[i].cells).value);
      assert events[i].recordId == RecordId(ParseRow(erp[i].cells).value);
    }
  }

  lemma {:induction false} ErpRowsAgain(others: seq<Event>, erp: seq<FileRow>, runId: string, slip: Slip, lineages: map<string, Lineage>,
                                        file: seq<FileRow>, k: nat)
    requires var events := StoredEvents(others, erp, runId, slip.entity);
      UniqueIds(events) && Issued(runId, events)
    requires |ReadEvents(erp, runId, slip.entity)| <= |file| && k < |ReadEvents(erp, runId, slip.entity)|
    ensures var r, e := Again(others, erp, runId, slip, lineages, file), ReadEvents(erp, runId, slip.entity)[k];
      && r.runId == slip.runId && r.narrations == map[]
      && NewId(r, e.eventId) == EventId(slip.runId, e.source, e.recordId)
      && e.eventId in r.lineages && r.lineages[e.eventId] == file[k].lineage
  {
    var events, own := StoredEvents(others, erp, runId, slip.entity), ReadEvents(erp, runId, slip.entity);
    hide ReadEvents, EventId;
    assert own[k] in events;
    assert UniqueIds(own) by {
      assert forall i | 0 <= i < |own| :: events[|others| + i] == own[i];
    }
    hide UniqueIds;
    FileLineageOf(own, file, k);
    ReissuedId(runId, events, slip.runId, lineages + FileLineages(own, file), own[k]);
  }

  /** Reading the corrected file completes exactly the corrected events: nothing of the draft is lost or changed
      on its way through the file. */
  lemma {:induction false} ImportedIsCorrected(others: seq<Event>, erp: seq<FileRow>, runId: string, lines: seq<JournalLine>, slip: Slip,
                                               lineages: map<string, Lineage>, file: seq<FileRow>)
    requires NumberedFile(erp) && IsValid(erp, runId, slip.entity) && Postable(lines, slip) && Extends(file, erp, RowsFor(lines, slip))
    requires var events := StoredEvents(others, erp, runId, slip.entity);
      UniqueIds(events) && Issued(runId, events) && FreshJournal(events, slip.journalId)
    ensures IsValid(file, slip.runId, slip.entity)
    ensures |ReadEvents(erp, runId, slip.entity)| == |erp| && |file| == |erp| + |lines|
    ensures Imported(others, erp, runId, slip, lineages, file)
         == CorrectedEvents(runId, StoredEvents(others, erp, runId, slip.entity), slip.runId,
                            lineages + FileLineages(ReadEvents(erp, runId, slip.entity), file),
                            Postings(lines, slip, LineagesOf(file[|erp|..])))
  {
    hide ParseRow, IsValid, ReadEvents, JournalId, EventId, Postable, NumberedFile, UniqueIds, Issued, FreshJournal, AllReadable, NotYetPosted, RowsFor,
         Again, StoredEvents, Extends, NewId, RenameAll, Postings, Imported, CorrectedEvents;
    FreshInFile(others, erp, runId, slip);
    ExtendedFileIsValid(erp, runId, lines, slip, file);
    ValidFileEvents(erp, runId, slip.entity);
    assert |file| == |erp| + |lines| by {
      RowsForLength(lines, slip);
      ExtendsLength(file, erp, RowsFor(lines, slip));
    }
    forall k: nat | k < |ReadEvents(erp, runId, slip.entity)|
      ensures var r, e := Again(others, erp, runId, slip, lineages, file), ReadEvents(erp, runId, slip.entity)[k];
        NewId(r, e.eventId) == EventId(slip.runId, e.source, e.recordId) && e.eventId in r.lineages && r.lineages[e.eventId] == file[k].lineage
    {
      ErpRowsAgain(others, erp, runId, slip, lineages, file, k);
    }
    AgainIsNewRun(others, erp, runId, slip, lineages, file);
    CorrectedFileReads(ReadEvents(erp, runId, slip.entity), erp, runId, lines, slip, file, Again(others, erp, runId, slip, lineages, file));
    JoinParts(others, erp, runId, slip, lineages, file, Postings(lines, slip, LineagesOf(file[|erp|..])));
  }

  lemma ExtendsLength(file: seq<FileRow>, erp: seq<FileRow>, more: seq<ErpRow>)
    requires Extends(file, erp, more)
    ensures |file| == |erp| + |more|
  {
  }

  lemma AgainIsNewRun(others: seq<Event>, erp: seq<FileRow>, runId: string, slip: Slip, lineages: map<string, Lineage>, file: seq<FileRow>)
    requires |ReadEvents(erp, runId, slip.entity)| <= |file|
    ensures var r := Again(others, erp, runId, slip, lineages, file); r.runId == slip.runId && r.narrations == map[]
  {
    hide ReadEvents, StoredEvents;
  }

  lemma JoinParts(others: seq<Event>, erp: seq<FileRow>, runId: string, slip: Slip, lineages: map<string, Lineage>, file: seq<FileRow>,
                  posted: seq<Event>)
    requires var own := ReadEvents(erp, runId, slip.entity);
      |own| <= |file| && ReadEvents(file, slip.runId, slip.entity) == RenameAll(Again(others, erp, runId, slip, lineages, file), own) + posted
    ensures Imported(others, erp, runId, slip, lineages, file)
         == CorrectedEvents(runId, StoredEvents(others, erp, runId, slip.entity), slip.runId,
                            lineages + FileLineages(ReadEvents(erp, runId, slip.entity), file), posted)
  {
    hide ReadEvents, Reimport, RenameAll;
    RenameAllConcat(Again(others, erp, runId, slip, lineages, file), others, ReadEvents(erp, runId, slip.entity));
  }

  // ---- the theorem --------------------------------------------------------------------------

  /** The correction loop closes its case and nothing else: the corrected file is valid, and in the run that
      imports it with the other files unchanged, the settlement is PROVED if and only if the missing posting
      was the only reason against it, and every other proposal keeps its rows, reasons, amount at risk and
      proof level. */
  lemma {:induction false} CorrectionClosesItsCase(others: seq<Event>, erp: seq<FileRow>, runId: string, policy: Policy, i: nat, slip: Slip,
                                                   lineages: map<string, Lineage>, file: seq<FileRow>, similarity: Similarity)
    requires CorrectableFile(others, erp, runId, policy, i, slip)
    requires Extends(file, erp, Appended(others, erp, runId, policy, i, slip))
    ensures IsValid(file, slip.runId, slip.entity) && |ReadEvents(erp, runId, slip.entity)| <= |file|
    ensures ClosesOnly(BatchOf(StoredEvents(others, erp, runId, slip.entity), policy).value,
                       BatchOf(Imported(others, erp, runId, slip, lineages, file), policy),
                       Again(others, erp, runId, slip, lineages, file), i, similarity)
  {
    var events := StoredEvents(others, erp, runId, slip.entity);
    CorrectableParts(events, policy, i, slip);
    var lines := DraftOf(events, policy, i, slip);
    hide StoredEvents, IsValid, ReadEvents, Correctable, DraftOf, BatchOf, Issued, FreshJournal, UniqueIds, Postable, Extends, RowsFor,
         ClosesOnly, CorrectedEvents, Imported, Postings, LineagesOf;
    ImportedIsCorrected(others, erp, runId, lines, slip, lineages, file);
    assert |LineagesOf(file[|erp|..])| == |lines| by { LineagesLength(file[|erp|..]); }
    PostedDraftCloses(events, policy, i, slip, lineages + FileLineages(ReadEvents(erp, runId, slip.entity), file), LineagesOf(file[|erp|..]), similarity);
  }

  lemma LineagesLength(rows: seq<FileRow>)
    ensures |LineagesOf(rows)| == |rows|
  {
  }

  lemma CorrectableParts(events: seq<Event>, policy: Policy, i: nat, slip: Slip)
    requires Correctable(events, policy, i, slip)
    ensures UniqueIds(events) && BatchOf(events, policy).Ok?
    ensures Issued(BatchOf(events, policy).value.runId, events) && FreshJournal(events, slip.journalId)
  {
    hide BatchOf, UniqueIds, Issued, FreshJournal, AllCases, SettlementReferences;
  }
}
