/** Accounts that a policy lists with padding come back from the ERP file without it: when a correction that posts to
    them still closes its case. */
module PaddedAccounts {
  import opened Events
  import opened TextOrder
  import opened Selection
  import opened Transforms
  import opened Context
  import opened SettlementRule
  import opened Gate
  import opened Verdicts
  import opened Proof
  import opened Money
  import opened Pipeline
  import opened Renaming
  import opened Invariance
  import opened Mirror
  import opened MirrorRun
  import opened Ledger
  import opened Drafting
  import opened Normalization
  import opened ErpImport
  import opened Rerun
  import opened Correction
  import opened CorrectionLoop
  import opened CorrectionRun
  import opened ErpReimport
  import opened CorrectionImport

  // ---- rows that read alike -----------------------------------------------------------------

  function Unpadded(line: JournalLine): JournalLine {
    line.(account := Strip(line.account))
  }

  function AllUnpadded(lines: seq<JournalLine>): seq<JournalLine> {
    seq(|lines|, i requires 0 <= i < |lines| => Unpadded(lines[i]))
  }

  lemma {:induction false} StripIsTrimmed(s: string)
    ensures Trimmed(Strip(s))
  {
    if s != "" && IsSpace(s[0]) {
      StripIsTrimmed(s[1..]);
    } else if s != "" && IsSpace(s[|s| - 1]) {
      StripIsTrimmed(s[..|s| - 1]);
    }
  }

  lemma {:induction false} UnpaddedReadsAlike(line: JournalLine, number: nat, journalId: string, day: int, reference: string)
    ensures ParseRow(Ledger.RowOf(Unpadded(line), number, journalId, day, reference))
         == ParseRow(Ledger.RowOf(line, number, journalId, day, reference))
  {
    StripIsTrimmed(line.account);
    hide Strip, ParseDecimalMinor, ParseInteger, Digits, Rupees, Upper, IsCurrency;
  }

  /** Two files whose rows read alike, with the same numbers and lineage. */
  ghost predicate ReadAlike(file: seq<FileRow>, other: seq<FileRow>) {
    |file| == |other| && forall i | 0 <= i < |file| ::
      && file[i].number == other[i].number && file[i].lineage == other[i].lineage
      && ParseRow(file[i].cells) == ParseRow(other[i].cells)
  }

  lemma {:induction false} SameEntries(file: seq<FileRow>, other: seq<FileRow>)
    requires ReadAlike(file, other)
    ensures Entries(file) == Entries(other)
  {
    hide ParseRow;
    if file != [] {
      SameEntries(file[..|file| - 1], other[..|other| - 1]);
    }
  }

  lemma {:induction false} SameReading(file: seq<FileRow>, other: seq<FileRow>, runId: string, entity: string)
    requires ReadAlike(file, other)
    ensures ReadEvents(file, runId, entity) == ReadEvents(other, runId, entity)
    ensures IsValid(file, runId, entity) <==> IsValid(other, runId, entity)
  {
    SameEntries(file, other);
    hide ParseRow, BuildEvent, Entries;
    assert ReadRows(file, runId, entity) == ReadRows(other, runId, entity);
    assert BatchIssues(file) == BatchIssues(other);
  }

  lemma {:induction false} SameFileLineages(events: seq<Event>, file: seq<FileRow>, other: seq<FileRow>)
    requires |events| <= |file| == |other| && forall i | 0 <= i < |file| :: file[i].lineage == other[i].lineage
    ensures FileLineages(events, file) == FileLineages(events, other)
  {
    if events != [] {
      SameFileLineages(events[..|events| - 1], file, other);
    }
  }

  /** The file with the appended accounts stripped. */
  function Stripped(file: seq<FileRow>, erp: seq<FileRow>, lines: seq<JournalLine>, slip: Slip): seq<FileRow>
    requires |file| == |erp| + |lines|
  {
    seq(|file|, i requires 0 <= i < |file| =>
      if i < |erp| then file[i] else file[i].(cells := RowsFor(AllUnpadded(lines), slip)[i - |erp|]))
  }

  lemma {:induction false} StrippedReadsAlike(file: seq<FileRow>, erp: seq<FileRow>, lines: seq<JournalLine>, slip: Slip)
    requires Extends(file, erp, RowsFor(lines, slip))
    ensures |file| == |erp| + |lines|
    ensures ReadAlike(file, Stripped(file, erp, lines, slip)) && Extends(Stripped(file, erp, lines, slip), erp, RowsFor(AllUnpadded(lines), slip))
  {
    hide ParseRow, Ledger.RowOf, Unpadded;
    var other := Stripped(file, erp, lines, slip);
    forall i | 0 <= i < |file| ensures ParseRow(file[i].cells) == ParseRow(other[i].cells) {
      if i >= |erp| {
        var k := i - |erp|;
        assert RowsFor(lines, slip)[k] == Ledger.RowOf(lines[k], k + 1, slip.journalId, slip.day, slip.reference);
        UnpaddedReadsAlike(lines[k], k + 1, slip.journalId, slip.day, slip.reference);
      }
    }
    forall row | row in other ensures row.number >= 1 {
      var i :| 0 <= i < |other| && other[i] == row;
      assert file[i] in file;
    }
  }

  /** Importing a file with padded accounts completes the events of the unpadded lines. */
  lemma {:induction false} PaddedImport(others: seq<Event>, erp: seq<FileRow>, runId: string, lines: seq<JournalLine>, slip: Slip,
                                        lineages: map<string, Lineage>, file: seq<FileRow>)
    requires NumberedFile(erp) && IsValid(erp, runId, slip.entity) && Postable(AllUnpadded(lines), slip) && Extends(file, erp, RowsFor(lines, slip))
    requires var events := StoredEvents(others, erp, runId, slip.entity);
      UniqueIds(events) && Issued(runId, events) && FreshJournal(events, slip.journalId)
    ensures IsValid(file, slip.runId, slip.entity)
    ensures |ReadEvents(erp, runId, slip.entity)| == |erp| && |file| == |erp| + |lines|
    ensures Imported(others, erp, runId, slip, lineages, file)
         == CorrectedEvents(runId, StoredEvents(others, erp, runId, slip.entity), slip.runId,
                            lineages + FileLineages(ReadEvents(erp, runId, slip.entity), file),
                            Postings(AllUnpadded(lines), slip, LineagesOf(file[|erp|..])))
  {
    hide IsValid, ReadEvents, Postable, NumberedFile, UniqueIds, Issued, FreshJournal, RowsFor, StoredEvents, Extends, RenameAll, Postings,
         CorrectedEvents, Reimport, ParseRow;
    StrippedReadsAlike(file, erp, lines, slip);
    var other := Stripped(file, erp, lines, slip);
    hide Stripped;
    SameReading(file, other, slip.runId, slip.entity);
    ImportedIsCorrected(others, erp, runId, AllUnpadded(lines), slip, lineages, other);
    SameFileLineages(ReadEvents(erp, runId, slip.entity), file, other);
    assert LineagesOf(file[|erp|..]) == LineagesOf(other[|erp|..]);
  }

  // ---- what survives ------------------------------------------------------------------------

  /** Does each account role still receive what the draft posts to it, once the accounts are stripped? */
  ghost predicate RolesSurvive(p: Policy, lines: seq<JournalLine>) {
    && RoleSum(AllUnpadded(lines), p.bankRole) == RoleSum(lines, p.bankRole)
    && RoleSum(AllUnpadded(lines), p.clearingRole) == RoleSum(lines, p.clearingRole)
    && RoleSum(AllUnpadded(lines), p.feeRole) == RoleSum(lines, p.feeRole)
    && RoleSum(AllUnpadded(lines), p.taxRole) == RoleSum(lines, p.taxRole)
  }

  lemma {:induction false} SidesSurvive(lines: seq<JournalLine>, side: Direction)
    ensures SideSum(AllUnpadded(lines), side) == SideSum(lines, side)
  {
    if lines != [] {
      SidesSurvive(lines[1..], side);
      assert AllUnpadded(lines)[1..] == AllUnpadded(lines[1..]);
      hide Strip;
    }
  }

  /** The posted events carry the accounts, amounts and sides of the stripped lines. */
  ghost predicate PostsUnpadded(lines: seq<JournalLine>, posted: seq<Event>) {
    |posted| == |lines| && forall i | 0 <= i < |posted| ::
      posted[i].account == Strip(lines[i].account) && posted[i].amount == lines[i].amount && posted[i].direction == lines[i].direction
  }

  /** What the roles of a draft receive is what the ledger side of a sound settlement asks for. */
  lemma {:induction false} DraftMeetsTargets(p: Policy, f: Facts, members: seq<Event>)
    requires f.gateway != [] && GatewayKinds(f.gateway) && p.ZeroTolerance() && p.StandardAccounts() && RolesHaveAccounts(p)
    requires FromGateway(members) == f.gateway && Draftable(p, members)
    requires Pick(f).rows == BankCredits(members) && BankSideHolds(p, f)
    ensures var lines := DraftLines(p, members);
      && lines != [] && SideSum(lines, Debit) == SideSum(lines, Credit)
      && RoleSum(lines, p.bankRole) == Net(f.gateway) && RoleSum(lines, p.clearingRole) == ClearingExpected(p, f)
      && RoleSum(lines, p.feeRole) == KindTotal(f, Fee) && RoleSum(lines, p.taxRole) == KindTotal(f, Tax)
  {
    OneReceiptAmount(p, f, members);
    ComponentsMeetDraft(p, f, members);
    assert |DraftLines(p, members)| >= 1 by {
      hide RoleLine, DebitLines, Draftable;
    }
    hide Select, Total, SignedTotal, BankCredits, Draftable, BankSideHolds, Pick, Net, GatewayKinds, OfThese, DraftTotal,
         ClearingExpected, KindTotal, DraftLines, FromGateway, RoleSum, SideSum;
    DraftByRole(p, members);
  }

  /** With nothing tolerated, the roles agree if and only if each received exactly its target. */
  lemma RolesAgreeExactly(p: Policy, f: Facts)
    requires |f.journals| == 1 && f.journals[0] != [] && p.erpTolerance == 0
    ensures RolesAgree(p, f) <==>
      && Posted(f, p.bankRole) == Net(f.gateway) && Posted(f, p.clearingRole) == ClearingExpected(p, f)
      && Posted(f, p.feeRole) == KindTotal(f, Fee) && Posted(f, p.taxRole) == KindTotal(f, Tax)
  {
    hide Posted, Net, ClearingExpected, KindTotal;
    if RolesAgree(p, f) {
      assert TargetMet(p, f, 0) && TargetMet(p, f, 1) && TargetMet(p, f, 2) && TargetMet(p, f, 3);
    }
  }

  /** The ledger side of a sound settlement holds after the posting if and only if the roles survive. */
  lemma {:induction false} LedgerExactly(p: Policy, f: Facts, members: seq<Event>, posted: seq<Event>)
    requires f.gateway != [] && GatewayKinds(f.gateway) && p.ZeroTolerance() && p.StandardAccounts() && RolesHaveAccounts(p)
    requires FromGateway(members) == f.gateway && Draftable(p, members)
    requires Pick(f).rows == BankCredits(members) && BankSideHolds(p, f)
    requires f.journals == [posted] && PostsUnpadded(DraftLines(p, members), posted)
    ensures LedgerHolds(p, f) <==> RolesSurvive(p, DraftLines(p, members))
  {
    var lines := DraftLines(p, members);
    hide BankCredits, Draftable, BankSideHolds, Pick, Net, GatewayKinds, ClearingExpected, KindTotal, DraftLines, FromGateway, RoleSum, SideSum,
         RolesAgree, Strip, Select, Total, AllUnpadded;
    DraftMeetsTargets(p, f, members);
    UnpaddedSums(p, lines, posted, p.bankRole, Debit);
    UnpaddedSums(p, lines, posted, p.clearingRole, Credit);
    UnpaddedSums(p, lines, posted, p.feeRole, Debit);
    UnpaddedSums(p, lines, posted, p.taxRole, Credit);
    assert posted != [];
    RolesAgreeExactly(p, f);
  }

  lemma {:induction false} UnpaddedSums(p: Policy, lines: seq<JournalLine>, posted: seq<Event>, role: Role, side: Direction)
    requires PostsUnpadded(lines, posted)
    ensures Total(Select(posted, PostedTo(role))) == RoleSum(AllUnpadded(lines), role)
    ensures Total(Select(posted, OnSide(side))) == SideSum(lines, side)
  {
    hide Strip, Select, Total, RoleSum, SideSum;
    SidesSurvive(lines, side);
    PostedSums(p, AllUnpadded(lines), posted, role, side);
  }

  /** After the posting the settlement is PROVED if and only if the missing posting was its only reason and the
      roles survive. */
  lemma {:induction false} UnpaddedLevel(b: Batch, r: Renaming, reference: string, consumed: set<string>, posted: seq<Event>,
                                         newRun: string, similarity: Similarity)
    requires Ordered(b.events) && Monotone(r, IdSet(b.events)) && GatewaySettlement(b, reference) != [] && LoopPolicy(b.policy)
    requires var f := FactsOf(b, reference, consumed);
      && GatewayKinds(f.gateway) && f.journals == [] && posted != []
      && Draftable(b.policy, Members(f)) && PostsUnpadded(DraftLines(b.policy, Members(f)), posted)
    ensures var f := FactsOf(b, reference, consumed);
      var f' := RenameFacts(r, f).(journals := [posted]);
      && f'.gateway != []
      && (CaseLevel(newRun, b.policy, f', similarity) == Proved
          <==> Reasons(b.policy, f) == [MissingErpPosting] && RolesSurvive(b.policy, DraftLines(b.policy, Members(f))))
  {
    hide Members, Reasons, BankSideHolds, LedgerHolds, AllHold, CaseLevel, AllCredits, GatewaySettlement, DrawnFrom, Monotone,
         Ordered, RenameAll, RenameGroups, RenameResult, FactsOf, GatewayKinds, Draftable, DraftLines, PostsUnpadded, RolesSurvive;
    var f, p := FactsOf(b, reference, consumed), b.policy;
    var f' := RenameFacts(r, f).(journals := [posted]);
    FactsGateway(b, reference, consumed);
    MissingPosting(p, f);
    CaseIsDrawnFrom(b, r, reference, consumed);
    BankSideSurvives(r, p, f, b.events);
    SidesIgnoreEachOther(p, RenameFacts(r, f), [posted]);
    if BankSideHolds(p, f) {
      UnpaddedLedger(b, r, reference, consumed, posted);
    }
    hide RenameFacts;
    ProvedMeansAllHold(newRun, p, f', similarity);
  }

  lemma {:induction false} UnpaddedLedger(b: Batch, r: Renaming, reference: string, consumed: set<string>, posted: seq<Event>)
    requires Ordered(b.events) && Monotone(r, IdSet(b.events)) && GatewaySettlement(b, reference) != [] && LoopPolicy(b.policy)
    requires var f := FactsOf(b, reference, consumed);
      && f.gateway != [] && GatewayKinds(f.gateway) && BankSideHolds(b.policy, f)
      && Draftable(b.policy, Members(f)) && PostsUnpadded(DraftLines(b.policy, Members(f)), posted)
    ensures var f := FactsOf(b, reference, consumed);
      && AllCredits(f)
      && (LedgerHolds(b.policy, RenameFacts(r, f).(journals := [posted])) <==> RolesSurvive(b.policy, DraftLines(b.policy, Members(f))))
  {
    hide FactsOf, Members, Pick, BankSideHolds, GatewayKinds, DraftLines, FromGateway, BankCredits, GatewaySettlement, AllCredits, LedgerHolds,
         PostsUnpadded, RolesSurvive, RenameFacts, Net, ClearingExpected, KindTotal, Ordered, Monotone, OfThese, Total;
    var f, p := FactsOf(b, reference, consumed), b.policy;
    var members := Members(f);
    TheReceipt(b, reference, consumed);
    GatewayOfCase(b, reference, consumed);
    SidesIgnoreEachOther(p, f, [posted]);
    PickIgnoresJournals(f, [posted]);
    LedgerExactly(p, f.(journals := [posted]), members, posted);
    LedgerSurvives(r, p, f, posted);
  }

  lemma {:induction false} UnpaddedProves(b: Batch, m: Batch, r: Renaming, posted: seq<Event>, refs: seq<string>, i: nat,
                                          journalId: string, similarity: Similarity)
    requires Posts(b, m, r, posted, refs, i) && LoopPolicy(b.policy)
    requires var f := Cases(b, refs)[i];
      && f.gateway != [] && GatewayKinds(f.gateway) && f.journals == []
      && Draftable(b.policy, Members(f)) && PostsUnpadded(DraftLines(b.policy, Members(f)), posted)
      && forall x | x in posted :: JournalId(x.recordId) == journalId
    ensures Cases(m, refs)[i].gateway != []
    ensures CaseLevel(m.runId, m.policy, Cases(m, refs)[i], similarity) == Proved
      <==> Reasons(b.policy, Cases(b, refs)[i]) == [MissingErpPosting]
           && RolesSurvive(b.policy, DraftLines(b.policy, Members(Cases(b, refs)[i])))
  {
    var f, f', p := Cases(b, refs)[i], Cases(m, refs)[i], b.policy;
    CaseAt(b, refs, i);
    CaseAt(m, refs, i);
    ReferencesAscend(b);
    assert refs[i] in refs;
    assert WellFormed(b) && m.policy == p && Mirrors(b, m, r, posted);
    var consumed := ClaimedBank(Cases(b, refs)[..i]);
    hide Cases, Known, Mirrors, GatewaySettlement, SettlementReferences, Members, Reasons, Ascending, DraftLines, Draftable,
         GatewayKinds, ClaimedBank, Pick, JournalId, PostsUnpadded, RolesSurvive;
    CaseAfter(b, m, r, posted, refs, i);
    PostedJournal(b, m, r, posted, refs[i], journalId);
    hide Journals, ErpLines;
    assert f' == RenameFacts(r, f).(journals := [posted]);
    UnpaddedLevel(b, r, refs[i], consumed, posted, m.runId, similarity);
  }

  // ---- the exact condition ------------------------------------------------------------------

  /** What the loop is given when accounts may be padded. */
  ghost predicate CorrectablePadded(others: seq<Event>, erp: seq<FileRow>, runId: string, policy: Policy, i: nat, slip: Slip) {
    var events := StoredEvents(others, erp, runId, slip.entity);
    && NumberedFile(erp) && IsValid(erp, runId, slip.entity)
    && Correctable(events, policy, i, slip) && BatchOf(events, policy).value.runId == runId
    && Postable(AllUnpadded(DraftOf(events, policy, i, slip)), slip)
  }

  /** The journal drafted from the stored run. */
  ghost function StoredDraft(others: seq<Event>, erp: seq<FileRow>, runId: string, policy: Policy, i: nat, slip: Slip): seq<JournalLine>
    requires CorrectablePadded(others, erp, runId, policy, i, slip)
  {
    DraftOf(StoredEvents(others, erp, runId, slip.entity), policy, i, slip)
  }

  /** The correction loop with padded accounts, exactly: the import is valid, every other proposal is unchanged, and
      the settlement is PROVED if and only if the missing posting was its only reason and each account role still
      receives its share once the file's reader has stripped the accounts. */
  lemma {:induction false} CorrectionClosesExactly(others: seq<Event>, erp: seq<FileRow>, runId: string, policy: Policy, i: nat, slip: Slip,
                                                   lineages: map<string, Lineage>, file: seq<FileRow>, similarity: Similarity)
    requires CorrectablePadded(others, erp, runId, policy, i, slip)
    requires Extends(file, erp, RowsFor(StoredDraft(others, erp, runId, policy, i, slip), slip))
    ensures IsValid(file, slip.runId, slip.entity) && |ReadEvents(erp, runId, slip.entity)| <= |file|
    ensures ClosesIf(BatchOf(StoredEvents(others, erp, runId, slip.entity), policy).value,
                     BatchOf(Imported(others, erp, runId, slip, lineages, file), policy),
                     Again(others, erp, runId, slip, lineages, file), i, similarity,
                     RolesSurvive(policy, StoredDraft(others, erp, runId, policy, i, slip)))
  {
    var events := StoredEvents(others, erp, runId, slip.entity);
    CorrectableParts(events, policy, i, slip);
    hide StoredEvents, IsValid, ReadEvents, Correctable, BatchOf, Issued, FreshJournal, UniqueIds, Postable, Extends, RowsFor,
         Imported, LineagesOf, CorrectedEvents, Reimport, DraftOf, Cases, Known, SettlementReferences, AllUnpadded, NumberedFile, ClosesIf,
         RolesSurvive;
    var lines := DraftOf(events, policy, i, slip);
    PaddedImport(others, erp, runId, lines, slip, lineages, file);
    LineagesLength(file[|erp|..]);
    PostedUnpaddedCloses(events, policy, i, slip, lineages + FileLineages(ReadEvents(erp, runId, slip.entity), file),
                         LineagesOf(file[|erp|..]), similarity);
  }

  /** The same over events. */
  lemma {:induction false} PostedUnpaddedCloses(events: seq<Event>, policy: Policy, i: nat, slip: Slip, lineages: map<string, Lineage>,
                                                rows: seq<Lineage>, similarity: Similarity)
    requires Correctable(events, policy, i, slip) && |rows| == |DraftOf(events, policy, i, slip)|
    ensures var b, posted := BatchOf(events, policy).value, Postings(AllUnpadded(DraftOf(events, policy, i, slip)), slip, rows);
      ClosesIf(b, BatchOf(CorrectedEvents(b.runId, events, slip.runId, lineages, posted), policy),
               Reimport(b.runId, events, slip.runId, lineages), i, similarity, RolesSurvive(policy, DraftOf(events, policy, i, slip)))
  {
    var b := BatchOf(events, policy).value;
    var lines := DraftOf(events, policy, i, slip);
    var posted := Postings(AllUnpadded(lines), slip, rows);
    hide BatchOf, Issued, FreshJournal, UniqueIds, CorrectedEvents, Reimport, Cases, Known, SettlementReferences, Postings, Posts,
         ClosesIf, RolesSurvive, Reasons, CaseLevel, Members, DraftLines, AllUnpadded, JournalId, PostsUnpadded, GatewayKinds, Draftable, LoopPolicy;
    PaddedCase(events, policy, i, slip);
    UnpaddedPosts(events, policy, i, slip, lineages, rows);
    UnpaddedMatch(lines, slip, rows);
    var m := BatchOf(CorrectedEvents(b.runId, events, slip.runId, lineages, posted), policy).value;
    var r := Reimport(b.runId, events, slip.runId, lineages);
    UnpaddedProves(b, m, r, posted, SettlementReferences(b), i, slip.journalId, similarity);
    ConcludeIf(b, m, r, posted, i, similarity, RolesSurvive(policy, lines));
  }

  lemma {:induction false} UnpaddedMatch(lines: seq<JournalLine>, slip: Slip, rows: seq<Lineage>)
    requires |rows| == |lines|
    ensures PostsUnpadded(lines, Postings(AllUnpadded(lines), slip, rows))
  {
    hide Strip, EventId, RecordId;
  }

  lemma {:induction false} PaddedCase(events: seq<Event>, policy: Policy, i: nat, slip: Slip)
    requires Correctable(events, policy, i, slip)
    ensures var b := BatchOf(events, policy).value;
      && b.policy == policy && LoopPolicy(policy)
      && Known(b, SettlementReferences(b)) && i < |SettlementReferences(b)|
      && var f := AllCases(b)[i];
      && f.gateway != [] && f.journals == [] && GatewayKinds(f.gateway) && Draftable(policy, Members(f))
  {
    BatchPolicy(events, policy);
    var b := BatchOf(events, policy).value;
    hide Members, Draftable, Reasons, FirstListed, BatchOf, SettlementReferences, Issued, FreshJournal, Cases, UniqueIds, GatewayKinds,
         NamedAccounts, Known, FIFTEEN;
    FiledReasonIsGiven(PRIORITY, Reasons(policy, AllCases(b)[i]));
    MissingPosting(policy, AllCases(b)[i]);
  }

  lemma {:induction false} UnpaddedPosts(events: seq<Event>, policy: Policy, i: nat, slip: Slip, lineages: map<string, Lineage>, rows: seq<Lineage>)
    requires Correctable(events, policy, i, slip) && |rows| == |DraftOf(events, policy, i, slip)|
    ensures var b, posted := BatchOf(events, policy).value, Postings(AllUnpadded(DraftOf(events, policy, i, slip)), slip, rows);
      var next := BatchOf(CorrectedEvents(b.runId, events, slip.runId, lineages, posted), policy);
      && next.Ok? && next.value.runId == slip.runId && next.value.policy == policy
      && Posts(b, next.value, Reimport(b.runId, events, slip.runId, lineages), posted, SettlementReferences(b), i)
      && forall x | x in posted :: JournalId(x.recordId) == slip.journalId
  {
    var b := BatchOf(events, policy).value;
    var lines := AllUnpadded(DraftOf(events, policy, i, slip));
    DraftShape(events, policy, i, slip);
    BatchPolicy(events, policy);
    hide Correctable, BatchOf, Issued, FreshJournal, UniqueIds, CorrectedEvents, Reimport, Cases, Known, SettlementReferences, Postings, DraftOf,
         PostedUnder, Posts, Strip, JournalId;
    assert |lines| == |rows| && forall k | 0 <= k < |lines| :: lines[k].currency == policy.currency;
    PostingsMatch(lines, slip, rows);
    PostingsAreOrdered(lines, slip, rows);
    LinesArePostedUnder(b, lines, slip, rows);
    hide AllUnpadded;
    assert Postings(lines, slip, rows) != [];
    hide Ordered;
    CorrectedRunPosts(events, policy, i, slip, lineages, Postings(lines, slip, rows));
    BatchPolicy(CorrectedEvents(b.runId, events, slip.runId, lineages, Postings(lines, slip, rows)), policy);
  }

  lemma {:induction false} DraftShape(events: seq<Event>, policy: Policy, i: nat, slip: Slip)
    requires Correctable(events, policy, i, slip)
    ensures var b, lines := BatchOf(events, policy).value, DraftOf(events, policy, i, slip);
      && UniqueIds(events) && BatchOf(events, policy).Ok? && Known(b, SettlementReferences(b)) && i < |SettlementReferences(b)|
      && Issued(b.runId, events) && FreshJournal(events, slip.journalId)
      && slip.entity == b.scope.entity && slip.reference == SettlementReferences(b)[i]
      && 2 <= |lines| <= 4 && forall k | 0 <= k < |lines| :: lines[k].currency == policy.currency
  {
    var b := BatchOf(events, policy).value;
    hide Members, Draftable, Reasons, FirstListed, BatchOf, SettlementReferences, Issued, FreshJournal, Cases, UniqueIds, GatewayKinds,
         NamedAccounts, Known, DraftLines;
    LineCurrency(policy, Members(AllCases(b)[i]));
    DraftIsAccepted(policy, Members(AllCases(b)[i]));
  }

  // ---- padded throughout --------------------------------------------------------------------

  lemma {:induction false} NothingSurvives(lines: seq<JournalLine>, role: Role)
    requires forall code | code in role.accounts :: !Trimmed(code)
    ensures RoleSum(AllUnpadded(lines), role) == 0
  {
    if lines != [] {
      NothingSurvives(lines[1..], role);
      assert AllUnpadded(lines)[1..] == AllUnpadded(lines[1..]);
      StripIsTrimmed(lines[0].account);
      hide Strip;
    }
  }

  lemma {:induction false} SameRoleSum(lines: seq<JournalLine>, role: Role)
    requires forall line | line in lines :: line.account in role.accounts <==> Strip(line.account) in role.accounts
    ensures RoleSum(AllUnpadded(lines), role) == RoleSum(lines, role)
  {
    hide Strip;
    if lines != [] {
      assert lines[0] in lines;
      SameRoleSum(lines[1..], role);
      assert AllUnpadded(lines)[1..] == AllUnpadded(lines[1..]);
    }
  }

  /** The roles survive when stripping takes no account out of its role or into another: so it is for tidy accounts,
      and for a role that lists an account both with and without its padding. */
  lemma {:induction false} ClosedRolesSurvive(p: Policy, lines: seq<JournalLine>)
    requires forall role, line | role in {p.bankRole, p.clearingRole, p.feeRole, p.taxRole} && line in lines ::
      line.account in role.accounts <==> Strip(line.account) in role.accounts
    ensures RolesSurvive(p, lines)
  {
    hide Strip, RoleSum;
    SameRoleSum(lines, p.bankRole);
    SameRoleSum(lines, p.clearingRole);
    SameRoleSum(lines, p.feeRole);
    SameRoleSum(lines, p.taxRole);
  }

  /** In particular: when every account of the policy's bank role is padded, nothing comes back under it, and the
      settlement stays unproved although its drafted journal would have closed it. */
  lemma {:induction false} PaddedAccountsStayOpen(others: seq<Event>, erp: seq<FileRow>, runId: string, policy: Policy, i: nat, slip: Slip,
                                                  lineages: map<string, Lineage>, file: seq<FileRow>, similarity: Similarity)
    requires CorrectablePadded(others, erp, runId, policy, i, slip)
    requires Extends(file, erp, RowsFor(StoredDraft(others, erp, runId, policy, i, slip), slip))
    requires forall code | code in policy.bankRole.accounts :: !Trimmed(code)
    ensures |ReadEvents(erp, runId, slip.entity)| <= |file|
    ensures var next := BatchOf(Imported(others, erp, runId, slip, lineages, file), policy);
      var refs := SettlementReferences(BatchOf(StoredEvents(others, erp, runId, slip.entity), policy).value);
      && next.Ok? && Known(next.value, refs) && i < |refs| && Cases(next.value, refs)[i].gateway != []
      && CaseLevel(next.value.runId, policy, Cases(next.value, refs)[i], similarity) != Proved
  {
    hide StoredEvents, IsValid, ReadEvents, Correctable, BatchOf, Postable, Extends, RowsFor, Imported, DraftOf, Cases, Known, SettlementReferences,
         Trimmed, AllUnpadded, NumberedFile, RoleSum, Again, Reasons, CaseLevel, OthersFollow, ProposalsFrom;
    CorrectionClosesExactly(others, erp, runId, policy, i, slip, lineages, file, similarity);
    PaddedCase(StoredEvents(others, erp, runId, slip.entity), policy, i, slip);
    DraftPaysBank(StoredEvents(others, erp, runId, slip.entity), policy, i, slip);
    NothingSurvives(StoredDraft(others, erp, runId, policy, i, slip), policy.bankRole);
  }

  lemma {:induction false} DraftPaysBank(events: seq<Event>, policy: Policy, i: nat, slip: Slip)
    requires Correctable(events, policy, i, slip)
    ensures RoleSum(DraftOf(events, policy, i, slip), policy.bankRole) > 0
  {
    hide BatchOf, Issued, FreshJournal, UniqueIds, Cases, Known, SettlementReferences, Reasons, Members, DraftLines, GatewayKinds, NamedAccounts,
         FirstListed, RoleSum, SideSum, BankCredits, OfThese, Total;
    PaddedCase(events, policy, i, slip);
    DraftByRole(policy, Members(AllCases(BatchOf(events, policy).value)[i]));
  }
}
