/** What becomes of every proposal of a run: which settlements clear, and how the others and the orphans are filed. */
module Outcomes {
  import opened Events
  import opened Selection
  import opened Context
  import opened Proposals
  import opened SettlementRule
  import opened Gate
  import opened Verdicts
  import opened Proof
  import opened Money
  import opened Pipeline
  import opened Partition
  import opened Totality
  import opened Clearance
  import opened Meaning

  // ---- settlements --------------------------------------------------------------------------

  /** A settlement of a run is auto-cleared if and only if it adds up on the rows that the settlements before it left. */
  lemma {:induction false} ClearsExactly(b: Batch, similarity: Similarity, k: nat)
    requires WellFormed(b) && b.policy.Valid() && b.policy.bankTolerance == 0 && b.policy.required == FIFTEEN && b.policy.autoClear
    requires BankRowsAreSound(b)
    requires forall e | e in b.events && e.source == Gateway :: e.kind in {Payment, Refund, Fee, Tax, Adjustment, EventType.Settlement}
    requires Known(b, SettlementReferences(b)) && Presentable(b, AllCases(b)) && k < |SettlementReferences(b)|
    ensures k < |ProposalsFrom(b, AllCases(b), similarity)|
    ensures Decisions(b, ProposalsFrom(b, AllCases(b), similarity))[k].state == AutoCleared
      <==> AddsUp(b, SettlementReferences(b)[k], ClaimedBank(AllCases(b)[..k]))
  {
    var refs, cases := SettlementReferences(b), AllCases(b);
    var ps := ProposalsFrom(b, cases, similarity);
    hide Cases, Known, SettlementReferences, ProposalsFrom, Level, Decide, WellFormed, OrphanErp, FIFTEEN, BankRowsAreSound, AddsUp, CaseLevel;
    MoreProposalsThanCases(b, cases, similarity);
    ProposalAt(b, refs, cases, similarity, k);
    CaseAt(b, refs, k);
    GatewayOnly(b, refs[k]);
    hide FactsOf, ClaimedBank, GatewaySettlement, GatewayKinds;
    ProvedExactlyWhenItAddsUp(b, refs[k], ClaimedBank(cases[..k]), similarity);
    ClearedIsProved(b.runId, ps[k], b.policy);
  }

  lemma {:induction false} ClearedIsProved(runId: string, p: Proposal, policy: Policy)
    ensures Decide(runId, p, policy).level == Level(p, policy.required)
    ensures Decide(runId, p, policy).state == AutoCleared <==> policy.autoClear && Level(p, policy.required) == Proved
  {
    DecisionTable(runId, p, policy);
    hide Level, State;
  }

  /** A settlement risks the larger of what it reports and what its components come to, and never less than nothing. */
  lemma {:induction false} SettlementAtRisk(runId: string, p: Policy, f: Facts, similarity: Similarity)
    requires f.gateway != [] && GatewayKinds(f.gateway)
    ensures var risk, reported, expected :=
        SettlementProposal(runId, p, f, similarity).amountAtRisk, ReportedAmount(f.gateway), NetAmount(p.signs, f.gateway);
      risk >= reported && risk >= expected && (risk == reported || risk == expected)
  {
    ComponentsByKind(p, f);
    ReportedExactly(f.gateway);
    hide Members, Features, ProofChecks, SupportChecks, FirstOfEach, Reasons, HardUnique, IsAmbiguous, IsInvalid, Score, ExpectedNet, Net,
         NetAmount, ReportedAmount, GatewayKinds;
  }

  // ---- orphans ------------------------------------------------------------------------------

  /** How an orphan is decided and filed: for review, under its own reason, at the amount given. */
  ghost predicate FiledForReview(b: Batch, p: Proposal, reason: Reason, amount: int) {
    var d := Decide(b.runId, p, b.policy);
    var x := CreateException(b.runId, p, d, b.policy);
    && d.level == Ambiguous && d.state == ReviewRequired
    && x.Some? && x.value.reason == reason && x.value.amountAtRisk == amount && x.value.level == Ambiguous && x.value.links == p.links
    && x.value.treatment == (if reason in b.policy.treatments then b.policy.treatments[reason] else b.policy.fallback)
  }

  lemma {:induction false} LargestAmountIs(rows: seq<Event>)
    ensures forall e | e in rows :: e.amount <= LargestAmount(rows)
    ensures rows != [] ==> exists e :: e in rows && e.amount == LargestAmount(rows)
  {
    if rows != [] {
      LargestAmountIs(rows[1..]);
      assert rows == [rows[0]] + rows[1..];
      assert rows[0] in rows;
    }
  }

  lemma {:induction false} OrphanIsFiled(b: Batch, rows: seq<Event>, reason: Reason, key: string)
    requires rows != []
    ensures FiledForReview(b, OrphanProposal(b.runId, b.policy, rows, reason, key), reason, LargestAmount(rows))
  {
    var p := OrphanProposal(b.runId, b.policy, rows, reason, key);
    assert p.reasons == [reason] && p.ambiguous && !p.invalid && p.amountAtRisk == LargestAmount(rows);
    hide OrphanProposal, Urgency, Decide, CreateException;
    DecisionTable(b.runId, p, b.policy);
    ExceptionTable(b.runId, p, b.policy);
    assert reason in p.reasons;
  }

  lemma OrphanShape(runId: string, policy: Policy, rows: seq<Event>, reason: Reason, key: string)
    requires rows != []
    ensures var p := OrphanProposal(runId, policy, rows, reason, key);
      p.eventIds == Ids(rows) && p.caseKey == if key != "" then key else rows[0].recordId
  {
    hide LargestAmount, Ids, EvidenceFor;
  }

  /** Every free bank row goes to review as an orphaned credit at its amount. */
  lemma {:induction false} OrphanRowsAreFiled(b: Batch, cases: seq<Facts>, similarity: Similarity, i: nat)
    requires Presentable(b, cases) && i < |OrphanBank(b, cases)|
    ensures |cases| + i < |ProposalsFrom(b, cases, similarity)|
    ensures var p, row := ProposalsFrom(b, cases, similarity)[|cases| + i], OrphanBank(b, cases)[i];
      && p.eventIds == [row.eventId] && p.caseKey == row.recordId && FiledForReview(b, p, OrphanBankCredit, row.amount)
  {
    var row := OrphanBank(b, cases)[i];
    hide OrphanBank, OrphanErp, FiledForReview, CaseProposals, Select, LargestAmount, Ids, OrphanProposal;
    assert |ProposalsFrom(b, cases, similarity)| == |cases| + |OrphanBank(b, cases)| + |OrphanErp(b, cases)|;
    hide ProposalsFrom;
    ProposalListParts(b, cases, similarity, |cases| + i);
    OrphanShape(b.runId, b.policy, [row], OrphanBankCredit, "");
    OrphanIsFiled(b, [row], OrphanBankCredit, "");
    OneRowOnly(row);
  }

  lemma OneRowOnly(row: Event)
    ensures LargestAmount([row]) == row.amount && Ids([row]) == [row.eventId]
  {
  }

  lemma {:induction false} LargestIs(lines: seq<Event>, amount: nat)
    requires (exists e :: e in lines && e.amount == amount) && forall e | e in lines :: e.amount <= amount
    ensures LargestAmount(lines) == amount
  {
    LargestAmountIs(lines);
    hide LargestAmount;
  }

  lemma {:induction false} OrphanJournalAt(b: Batch, cases: seq<Facts>, similarity: Similarity, i: nat)
    requires Presentable(b, cases) && i < |OrphanErp(b, cases)|
    ensures |cases| + |OrphanBank(b, cases)| + i < |ProposalsFrom(b, cases, similarity)|
    ensures var p, lines := ProposalsFrom(b, cases, similarity)[|cases| + |OrphanBank(b, cases)| + i], OrphanErp(b, cases)[i];
      && lines != [] && p.eventIds == Ids(lines) && FiledForReview(b, p, OrphanErpPosting, LargestAmount(lines))
      && p.caseKey == (if JournalId(lines[0].recordId) != "" then JournalId(lines[0].recordId) else lines[0].recordId)
  {
    var lines, k := OrphanErp(b, cases)[i], |cases| + |OrphanBank(b, cases)| + i;
    hide OrphanBank, OrphanErp, FiledForReview, CaseProposals, Select, JournalId, Ids, LargestAmount, OrphanProposal;
    assert |ProposalsFrom(b, cases, similarity)| == |cases| + |OrphanBank(b, cases)| + |OrphanErp(b, cases)|;
    hide ProposalsFrom;
    ProposalListParts(b, cases, similarity, k);
    OrphanIsFiled(b, lines, OrphanErpPosting, JournalId(lines[0].recordId));
    OrphanShape(b.runId, b.policy, lines, OrphanErpPosting, JournalId(lines[0].recordId));
  }

  /** Every free journal goes to review as an orphaned posting at its largest line, under its own id if it has one. */
  lemma {:induction false} OrphanJournalsAreFiled(b: Batch, cases: seq<Facts>, similarity: Similarity, i: nat, amount: nat)
    requires Presentable(b, cases) && i < |OrphanErp(b, cases)|
    requires exists e :: e in OrphanErp(b, cases)[i] && e.amount == amount
    requires forall e | e in OrphanErp(b, cases)[i] :: e.amount <= amount
    ensures |cases| + |OrphanBank(b, cases)| + i < |ProposalsFrom(b, cases, similarity)|
    ensures var p, lines := ProposalsFrom(b, cases, similarity)[|cases| + |OrphanBank(b, cases)| + i], OrphanErp(b, cases)[i];
      && lines != [] && p.eventIds == Ids(lines) && FiledForReview(b, p, OrphanErpPosting, amount)
      && p.caseKey == (if JournalId(lines[0].recordId) != "" then JournalId(lines[0].recordId) else lines[0].recordId)
  {
    hide OrphanBank, OrphanErp, FiledForReview, ProposalsFrom, JournalId, Ids, LargestAmount;
    OrphanJournalAt(b, cases, similarity, i);
    LargestIs(OrphanErp(b, cases)[i], amount);
  }
}
