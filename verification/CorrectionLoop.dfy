/** The correction loop over a whole run: one case changes, everything else stays what it was. */
module CorrectionLoop {
  import opened Events
  import opened TextOrder
  import opened Selection
  import opened Context
  import opened Proposals
  import opened SettlementRule
  import opened Gate
  import opened Verdicts
  import opened Proof
  import opened Money
  import opened Pipeline
  import opened Partition
  import opened Renaming
  import opened Mirror
  import opened Invariance
  import opened MirrorRun
  import opened MirrorSweep
  import opened Drafting
  import opened Correction

  // ---- what a corrected run is --------------------------------------------------------------

  /** Run `m` reads run `b` again, with one extra journal posted under the `i`-th reference. */
  ghost predicate Posts(b: Batch, m: Batch, r: Renaming, posted: seq<Event>, refs: seq<string>, i: nat) {
    && Mirrors(b, m, r, posted)
    && refs == SettlementReferences(b) && Known(b, refs) && Known(m, refs) && i < |refs|
    && posted != [] && Ordered(posted)
    && forall x | x in posted :: x.externalRef == refs[i]
  }

  lemma {:induction false} ReferencesAscend(b: Batch)
    ensures Ascending(SettlementReferences(b)) && "" !in SettlementReferences(b)
  {
    SortedDistinctAscending(SettlementKeys(Select(b.events, FromSource(Gateway))));
    SortedDistinctMembers(SettlementKeys(Select(b.events, FromSource(Gateway))));
    SettlementKeysMembers(Select(b.events, FromSource(Gateway)));
  }

  /** The settlement posted to sees the extra journal. */
  lemma {:induction false} CaseAfter(b: Batch, m: Batch, r: Renaming, posted: seq<Event>, refs: seq<string>, j: nat)
    requires Mirrors(b, m, r, posted) && Known(b, refs) && Known(m, refs) && j < |refs|
    ensures Cases(m, refs)[j] == MirrorCase(m, r, Cases(b, refs)[j])
    ensures (forall x | x in posted :: x.externalRef != refs[j]) ==>
      Cases(m, refs)[j] == RenameFacts(r, Cases(b, refs)[j])
  {
    MirroredCases(b, m, r, posted, refs);
    hide Cases, Known, ClaimedBank, RenameIds, Journals, ErpLines, Monotone, RenameGroups, RenameAll;
    MirrorCasesAt(m, r, Cases(b, refs), j);
    CaseAt(b, refs, j);
    if forall x | x in posted :: x.externalRef != refs[j] {
      MirroredJournals(b, m, r, posted, refs[j]);
    }
  }

  lemma {:induction false} OtherCaseAfter(b: Batch, m: Batch, r: Renaming, posted: seq<Event>, refs: seq<string>, i: nat, j: nat)
    requires Posts(b, m, r, posted, refs, i) && j < |refs| && j != i
    ensures Cases(m, refs)[j] == RenameFacts(r, Cases(b, refs)[j])
  {
    ReferencesAscend(b);
    hide Cases, Known, Mirrors, SettlementReferences, RenameFacts;
    if refs[i] == refs[j] {
      AscendingHasNoRepeats(refs, i, j);
    }
    hide Ascending, Ordered;
    CaseAfter(b, m, r, posted, refs, j);
  }

  // ---- levels -------------------------------------------------------------------------------

  lemma {:induction false} SameConditions(r: Renaming, p: Policy, f: Facts, universe: seq<Event>)
    requires f.gateway != [] && DrawnFrom(r, f, universe)
    ensures AllHold(p, RenameFacts(r, f)) <==> AllHold(p, f)
  {
    AllHoldMeansEachHolds(p, f);
    AllHoldMeansEachHolds(p, RenameFacts(r, f));
    hide AllHold, Holds, RenameFacts, DrawnFrom;
    forall code | code in FIFTEEN ensures Holds(p, RenameFacts(r, f), code) <==> Holds(p, f, code) {
      SameHolds(r, p, f, universe, code);
    }
  }

  lemma LevelOfParts(runId: string, p: Policy, f: Facts, similarity: Similarity)
    requires f.gateway != [] && p.required == FIFTEEN
    ensures CaseLevel(runId, p, f, similarity)
         == if IsInvalid(f) then InvalidInput
            else if IsAmbiguous(f) then Ambiguous
            else if FirstAmong(Reasons(p, f), HARD_CONTRADICTIONS).Some? then Contradicted
            else if AllHold(p, f) && HardUnique(f) then Proved
            else Supported
  {
    RequiredPassMeansAllHold(runId, p, f, similarity);
    assert SettlementProposal(runId, p, f, similarity).reasons == Reasons(p, f);
    assert var q := SettlementProposal(runId, p, f, similarity);
      q.unique == HardUnique(f) && q.ambiguous == IsAmbiguous(f) && q.invalid == IsInvalid(f);
    hide SettlementProposal, AllHold, Reasons, IsInvalid, IsAmbiguous, HardUnique, FirstAmong, RequiredPass;
  }

  /** A renamed settlement has the same proof level. */
  lemma {:induction false} SameLevel(r: Renaming, p: Policy, f: Facts, universe: seq<Event>, runId: string, newRun: string,
                                     similarity: Similarity)
    requires f.gateway != [] && DrawnFrom(r, f, universe) && p.required == FIFTEEN
    ensures CaseLevel(newRun, p, RenameFacts(r, f), similarity) == CaseLevel(runId, p, f, similarity)
  {
    SameConditions(r, p, f, universe);
    SameReasons(r, p, f, universe);
    SameFlags(r, p, f, universe);
    assert RenameFacts(r, f).gateway != [];
    hide RenameFacts, CaseLevel, AllHold, Reasons, IsInvalid, IsAmbiguous, HardUnique, FirstAmong, DrawnFrom, ComponentsAgree;
    LevelOfParts(runId, p, f, similarity);
    LevelOfParts(newRun, p, RenameFacts(r, f), similarity);
  }

  /** With nothing tolerated, PROVED is the conjunction of the fifteen conditions. */
  lemma {:induction false} ProvedMeansAllHold(runId: string, p: Policy, f: Facts, similarity: Similarity)
    requires f.gateway != [] && p.required == FIFTEEN && p.bankTolerance == 0
    requires forall g | g in f.journals :: g != []
    ensures CaseLevel(runId, p, f, similarity) == Proved <==> AllHold(p, f)
  {
    ProvedExactlyWhenUnopposed(runId, p, f, similarity);
    ExplanationsAreComplete(p, f);
    hide CaseLevel, AllButDirection, AllCredits, Reasons;
  }

  // ---- proposals ----------------------------------------------------------------------------

  function NewIds(r: Renaming, ids: seq<string>): seq<string> {
    seq(|ids|, i requires 0 <= i < |ids| => NewId(r, ids[i]))
  }

  lemma {:induction false} IdsOfRenamed(r: Renaming, s: seq<Event>)
    ensures Ids(RenameAll(r, s)) == NewIds(r, Ids(s))
  {
    forall i | 0 <= i < |s| ensures Ids(RenameAll(r, s))[i] == NewIds(r, Ids(s))[i] {
      RenameAllAt(r, s, i);
    }
  }

  /** The later proposal is about the same rows and says the same thing about them. */
  ghost predicate Follows(r: Renaming, required: set<CheckCode>, before: Proposal, after: Proposal) {
    && after.eventIds == NewIds(r, before.eventIds)
    && after.caseKey == before.caseKey && after.reasons == before.reasons && after.amountAtRisk == before.amountAtRisk
    && Level(after, required) == Level(before, required)
  }

  lemma {:induction false} CaseFollows(b: Batch, m: Batch, r: Renaming, reference: string, consumed: set<string>,
                                       similarity: Similarity)
    requires Ordered(b.events) && Monotone(r, IdSet(b.events)) && GatewaySettlement(b, reference) != []
    requires b.policy.required == FIFTEEN && m.policy == b.policy
    ensures var f := FactsOf(b, reference, consumed);
      Follows(r, FIFTEEN, SettlementProposal(b.runId, b.policy, f, similarity),
              SettlementProposal(m.runId, m.policy, RenameFacts(r, f), similarity))
  {
    var f, p := FactsOf(b, reference, consumed), b.policy;
    CaseIsDrawnFrom(b, r, reference, consumed);
    SameLevel(r, p, f, b.events, b.runId, m.runId, similarity);
    SameReasons(r, p, f, b.events);
    RenamedMembers(b, r, reference, consumed);
    RenamedSums(r, p, f);
    RenamedAnchor(r, f.gateway);
    hide FactsOf, DrawnFrom, Members, Reasons, Level, ProofChecks, SupportChecks, Features, Score, FirstOfEach, HardUnique,
         IsAmbiguous, IsInvalid, ExpectedNet, Net, RenameAll, GatewaySettlement, GatewayLinks, BankLinks, ErpLinks, Ids;
    IdsOfRenamed(r, Members(f));
  }

  lemma {:induction false} LargestOfRenamed(r: Renaming, s: seq<Event>)
    ensures LargestAmount(RenameAll(r, s)) == LargestAmount(s)
  {
    if s != [] {
      LargestOfRenamed(r, s[1..]);
      assert RenameAll(r, s)[1..] == RenameAll(r, s[1..]);
    }
  }

  lemma {:induction false} OrphanFollows(b: Batch, m: Batch, r: Renaming, rows: seq<Event>, reason: Reason, key: string)
    requires rows != [] && m.policy == b.policy
    ensures RenameAll(r, rows) != []
    ensures Follows(r, b.policy.required, OrphanProposal(b.runId, b.policy, rows, reason, key),
                    OrphanProposal(m.runId, m.policy, RenameAll(r, rows), reason, key))
  {
    IdsOfRenamed(r, rows);
    LargestOfRenamed(r, rows);
    RenameAllAt(r, rows, 0);
    assert RenameAll(r, rows)[0].recordId == rows[0].recordId;
    hide Ids, LargestAmount, RenameAll, NewIds;
  }

  ghost predicate SameOrphans(b: Batch, m: Batch, r: Renaming, cases: seq<Facts>, cases': seq<Facts>) {
    && OrphanBank(m, cases') == RenameAll(r, OrphanBank(b, cases))
    && OrphanErp(m, cases') == RenameGroups(r, OrphanErp(b, cases))
  }

  lemma {:induction false} OrphanProposalFollows(b: Batch, m: Batch, r: Renaming, cases: seq<Facts>, cases': seq<Facts>,
                                                 similarity: Similarity, k: nat)
    requires Presentable(b, cases) && Presentable(m, cases') && |cases'| == |cases| && m.policy == b.policy
    requires SameOrphans(b, m, r, cases, cases')
    requires |cases| <= k < |ProposalsFrom(b, cases, similarity)|
    ensures |ProposalsFrom(m, cases', similarity)| == |ProposalsFrom(b, cases, similarity)|
    ensures Follows(r, b.policy.required, ProposalsFrom(b, cases, similarity)[k], ProposalsFrom(m, cases', similarity)[k])
  {
    var bank, erp := OrphanBank(b, cases), OrphanErp(b, cases);
    var bank', erp' := OrphanBank(m, cases'), OrphanErp(m, cases');
    var n := |cases|;
    hide OrphanBank, OrphanErp, CaseProposals, Follows, OrphanProposal, Grounded, RenameAll;
    if k < n + |bank| {
      var row := bank[k - n];
      assert ProposalsFrom(b, cases, similarity)[k] == BankOrphanProposals(b, bank)[k - n];
      assert ProposalsFrom(m, cases', similarity)[k] == BankOrphanProposals(m, bank')[k - n];
      RenameAllAt(r, bank, k - n);
      RenamedSingleton(r, row);
      OrphanFollows(b, m, r, [row], OrphanBankCredit, "");
    } else {
      var q := k - n - |bank|;
      assert ProposalsFrom(b, cases, similarity)[k] == ErpOrphanProposals(b, erp)[q];
      assert ProposalsFrom(m, cases', similarity)[k] == ErpOrphanProposals(m, erp')[q];
      RenameGroupsAt(r, erp, q);
      RenameAllAt(r, erp[q], 0);
      OrphanFollows(b, m, r, erp[q], OrphanErpPosting, JournalId(erp[q][0].recordId));
    }
  }

  lemma RenamedSingleton(r: Renaming, e: Event)
    ensures RenameAll(r, [e]) == [Rename(r, e)]
  {
    hide Rename;
  }

  // ---- the loop -----------------------------------------------------------------------------

  lemma {:induction false} PostedLinesAreSettled(b: Batch, m: Batch, r: Renaming, posted: seq<Event>, refs: seq<string>, i: nat)
    requires Posts(b, m, r, posted, refs, i)
    ensures forall x | x in posted :: PostedFor(m, refs, x)
  {
    ReferencesAscend(b);
    hide Known, Monotone, RenameAll, SettlementReferences, Ascending;
    assert refs[i] in refs;
  }

  lemma {:induction false} SettledReferencesAgree(b: Batch, m: Batch, r: Renaming, posted: seq<Event>, refs: seq<string>, i: nat)
    requires Posts(b, m, r, posted, refs, i)
    ensures WellFormed(b) && WellFormed(m) && m.policy == b.policy && SettlementReferences(m) == refs
    ensures Presentable(b, Cases(b, refs)) && Presentable(m, Cases(m, refs))
    ensures SameOrphans(b, m, r, Cases(b, refs), Cases(m, refs))
  {
    PostedLinesAreSettled(b, m, r, posted, refs, i);
    MirroredReferences(b, m, r, posted);
    hide Cases, Known, Monotone, RenameAll, Ordered, OrphanBank, OrphanErp, PostedFor, RenameGroups;
    CasesArePresentable(b, refs);
    CasesArePresentable(m, refs);
    MirroredOrphanBank(b, m, r, posted, refs);
    MirroredOrphanErp(b, m, r, posted, refs);
  }

  /** Posting a journal under one reference leaves every other settlement and every orphan with the
      same rows, the same reasons, the same amount at risk and the same proof level. */
  lemma {:induction false} NothingElseMoves(b: Batch, m: Batch, r: Renaming, posted: seq<Event>, refs: seq<string>, i: nat,
                                            similarity: Similarity, k: nat)
    requires Posts(b, m, r, posted, refs, i) && b.policy.required == FIFTEEN
    requires Presentable(b, Cases(b, refs)) && Presentable(m, Cases(m, refs))
    requires k < |ProposalsFrom(b, Cases(b, refs), similarity)| && k != i
    ensures |ProposalsFrom(m, Cases(m, refs), similarity)| == |ProposalsFrom(b, Cases(b, refs), similarity)|
    ensures Follows(r, FIFTEEN, ProposalsFrom(b, Cases(b, refs), similarity)[k], ProposalsFrom(m, Cases(m, refs), similarity)[k])
  {
    var cases, cases' := Cases(b, refs), Cases(m, refs);
    SettledReferencesAgree(b, m, r, posted, refs, i);
    SameNumber(b, m, r, cases, cases', similarity);
    if k < |refs| {
      OtherCaseAfter(b, m, r, posted, refs, i, k);
      CaseAt(b, refs, k);
      assert Monotone(r, IdSet(b.events));
      hide Cases, Known, Monotone, Mirrors, FactsOf, ClaimedBank, GatewaySettlement, Follows, CaseProposals, RenameFacts,
           OrphanBank, OrphanErp, SettlementProposal;
      CaseProposalAt(b, cases, similarity, k);
      CaseProposalAt(m, cases', similarity, k);
      CaseFollows(b, m, r, refs[k], ClaimedBank(cases[..k]), similarity);
    } else {
      hide Cases, Known, Monotone, Mirrors, SameOrphans, ProposalsFrom, Follows, Presentable;
      OrphanProposalFollows(b, m, r, cases, cases', similarity, k);
    }
  }

  lemma SameNumber(b: Batch, m: Batch, r: Renaming, cases: seq<Facts>, cases': seq<Facts>, similarity: Similarity)
    requires Presentable(b, cases) && Presentable(m, cases') && |cases'| == |cases| && SameOrphans(b, m, r, cases, cases')
    ensures |ProposalsFrom(m, cases', similarity)| == |ProposalsFrom(b, cases, similarity)| >= |cases|
    ensures forall i | 0 <= i < |cases| ::
      && ProposalsFrom(b, cases, similarity)[i] == CaseProposals(b, cases, similarity)[i]
      && ProposalsFrom(m, cases', similarity)[i] == CaseProposals(m, cases', similarity)[i]
  {
    hide OrphanBank, OrphanErp, CaseProposals, RenameAll, RenameGroups, OrphanProposal;
  }

  /** The posted lines are the draft's, all in one new journal. */
  ghost predicate PostsDraft(p: Policy, members: seq<Event>, posted: seq<Event>, journalId: string)
    requires RolesHaveAccounts(p)
  {
    && Draftable(p, members) && |posted| == |DraftLines(p, members)|
    && (forall i | 0 <= i < |posted| ::
         var line := DraftLines(p, members)[i];
         posted[i].account == line.account && posted[i].amount == line.amount && posted[i].direction == line.direction)
    && forall x | x in posted :: JournalId(x.recordId) == journalId
  }

  ghost predicate LoopPolicy(p: Policy) {
    p.Valid() && p.required == FIFTEEN && p.ZeroTolerance() && p.StandardAccounts() && RolesHaveAccounts(p)
  }

  /** After its draft is posted, a settlement without a journal is proved if and only if the missing
      journal was the only thing wrong with it. */
  lemma {:induction false} PostingProves(b: Batch, m: Batch, r: Renaming, posted: seq<Event>, refs: seq<string>, i: nat,
                                         journalId: string, similarity: Similarity)
    requires Posts(b, m, r, posted, refs, i) && LoopPolicy(b.policy)
    requires var f := Cases(b, refs)[i];
      && f.gateway != [] && GatewayKinds(f.gateway) && MissingErpPosting in Reasons(b.policy, f)
      && PostsDraft(b.policy, Members(f), posted, journalId)
    ensures Cases(m, refs)[i].gateway != []
    ensures CaseLevel(m.runId, m.policy, Cases(m, refs)[i], similarity) == Proved
      <==> Reasons(b.policy, Cases(b, refs)[i]) == [MissingErpPosting]
  {
    var f, f', p := Cases(b, refs)[i], Cases(m, refs)[i], b.policy;
    CaseAt(b, refs, i);
    CaseAt(m, refs, i);
    CaseAfter(b, m, r, posted, refs, i);
    ReferencesAscend(b);
    assert refs[i] in refs;
    MissingPosting(p, f);
    assert WellFormed(b) && m.policy == p && Mirrors(b, m, r, posted);
    var consumed := ClaimedBank(Cases(b, refs)[..i]);
    hide Cases, Known, Mirrors, GatewaySettlement, SettlementReferences, Members, Reasons, Ascending, DraftLines, Draftable,
         BankSideHolds, GatewayKinds, ClaimedBank, Pick;
    PostedJournal(b, m, r, posted, refs[i], journalId);
    hide Journals, ErpLines;
    assert f' == RenameFacts(r, f).(journals := [posted]);
    PostedLevel(b, r, refs[i], consumed, posted, m.runId, similarity);
  }

  lemma FactsGateway(b: Batch, reference: string, consumed: set<string>)
    requires GatewaySettlement(b, reference) != []
    ensures FactsOf(b, reference, consumed).gateway == GatewaySettlement(b, reference)
  {
    hide GatewaySettlement, UtrRows, Receipts, Journals, ErpLines;
  }

  lemma {:induction false} PostedLevel(b: Batch, r: Renaming, reference: string, consumed: set<string>, posted: seq<Event>,
                                       newRun: string, similarity: Similarity)
    requires Ordered(b.events) && Monotone(r, IdSet(b.events)) && GatewaySettlement(b, reference) != [] && LoopPolicy(b.policy)
    requires var f := FactsOf(b, reference, consumed);
      && GatewayKinds(f.gateway) && f.journals == [] && posted != []
      && exists journalId :: PostsDraft(b.policy, Members(f), posted, journalId)
    ensures var f := FactsOf(b, reference, consumed);
      var f' := RenameFacts(r, f).(journals := [posted]);
      && f'.gateway != []
      && (CaseLevel(newRun, b.policy, f', similarity) == Proved <==> Reasons(b.policy, f) == [MissingErpPosting])
  {
    hide Members, Reasons, BankSideHolds, LedgerHolds, AllHold, CaseLevel, AllCredits, GatewaySettlement, DrawnFrom, Monotone,
         Ordered, PostsDraft, RenameAll, RenameGroups, RenameResult, FactsOf, GatewayKinds;
    var f, p := FactsOf(b, reference, consumed), b.policy;
    var f' := RenameFacts(r, f).(journals := [posted]);
    FactsGateway(b, reference, consumed);
    MissingPosting(p, f);
    CaseIsDrawnFrom(b, r, reference, consumed);
    BankSideSurvives(r, p, f, b.events);
    SidesIgnoreEachOther(p, RenameFacts(r, f), [posted]);
    PostedLedger(b, r, reference, consumed, posted);
    hide RenameFacts;
    ProvedMeansAllHold(newRun, p, f', similarity);
  }

  lemma {:induction false} PostedLedger(b: Batch, r: Renaming, reference: string, consumed: set<string>, posted: seq<Event>)
    requires Ordered(b.events) && Monotone(r, IdSet(b.events)) && GatewaySettlement(b, reference) != [] && LoopPolicy(b.policy)
    requires var f := FactsOf(b, reference, consumed);
      && GatewayKinds(f.gateway)
      && exists journalId :: PostsDraft(b.policy, Members(f), posted, journalId)
    ensures var f := FactsOf(b, reference, consumed);
      BankSideHolds(b.policy, f) ==>
      AllCredits(f) && LedgerHolds(b.policy, RenameFacts(r, f).(journals := [posted]))
  {
    var f, p := FactsOf(b, reference, consumed), b.policy;
    var members := Members(f);
    var g := f.(journals := [posted]);
    if BankSideHolds(p, f) {
      TheReceipt(b, reference, consumed);
      GatewayOfCase(b, reference, consumed);
      SidesIgnoreEachOther(p, f, [posted]);
      PickIgnoresJournals(f, [posted]);
      hide FactsOf, Members, Pick, BankSideHolds, GatewayKinds, Draftable, DraftLines, FromGateway, BankCredits,
           GatewaySettlement, AllCredits, LedgerHolds;
      DraftFitsTheLedger(p, g, members, posted);
      LedgerSurvives(r, p, f, posted);
    }
  }

  lemma LedgerSurvives(r: Renaming, p: Policy, f: Facts, posted: seq<Event>)
    requires f.gateway != []
    ensures RenameAll(r, f.gateway) != []
    ensures LedgerHolds(p, RenameFacts(r, f).(journals := [posted])) <==> LedgerHolds(p, f.(journals := [posted]))
  {
    RenamedSums(r, p, f);
    RenamedAnchor(r, f.gateway);
    hide Select, Total, SignedTotal, RenameAll, RenameGroups, RenameResult, Net;
    SameTargets(p, RenameFacts(r, f).(journals := [posted]), f.(journals := [posted]));
  }

  lemma SameTargets(p: Policy, f: Facts, g: Facts)
    requires f.journals == g.journals && Net(f.gateway) == Net(g.gateway)
    requires ClearingExpected(p, f) == ClearingExpected(p, g)
    requires KindTotal(f, Fee) == KindTotal(g, Fee) && KindTotal(f, Tax) == KindTotal(g, Tax)
    ensures LedgerHolds(p, f) <==> LedgerHolds(p, g)
  {
    hide Net, ClearingExpected, KindTotal, Total, Select;
    assert Journal(f) == Journal(g);
    assert forall i: nat | i < 4 :: TargetMet(p, f, i) <==> TargetMet(p, g, i);
  }
}
