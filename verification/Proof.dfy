/** What PROVED means for one settlement. */
module Proof {
  import opened Events
  import opened Selection
  import opened Grouping
  import opened Context
  import opened Proposals
  import opened SettlementRule
  import opened CaseFacts
  import opened Gate
  import opened Verdicts

  ghost function CaseLevel(runId: string, p: Policy, f: Facts, similarity: Similarity): ProofLevel
    requires f.gateway != []
  {
    Level(SettlementProposal(runId, p, f, similarity), p.required)
  }

  /** What the gate sees of a settlement, checks aside. */
  lemma FlagsOf(runId: string, p: Policy, f: Facts, similarity: Similarity)
    requires f.gateway != []
    ensures var q := SettlementProposal(runId, p, f, similarity);
      q.reasons == Reasons(p, f) && q.unique == HardUnique(f) && q.ambiguous == IsAmbiguous(f) && q.invalid == IsInvalid(f)
  {
    hide Members, Features, ProofChecks, SupportChecks, FirstOfEach, Reasons, HardUnique, IsAmbiguous, IsInvalid, ExpectedNet, Net, Score;
  }

  lemma {:induction false} RequiringMore(required: set<CheckCode>, checks: seq<Check>)
    requires FIFTEEN <= required && RequiredPass(required, checks)
    ensures RequiredPass(FIFTEEN, checks)
  {
  }

  /** A settlement can only be proved by all fifteen conditions, whatever else a policy requires. */
  lemma {:induction false} ProvedNeedsAll(runId: string, p: Policy, f: Facts, similarity: Similarity)
    requires f.gateway != [] && FIFTEEN <= p.required
    requires CaseLevel(runId, p, f, similarity) == Proved
    ensures AllHold(p, f)
  {
    hide AllHold, SettlementProposal, Level, RequiredPass, FIFTEEN;
    RequiredPassMeansAllHold(runId, p, f, similarity);
    ProvedPassesRequired(SettlementProposal(runId, p, f, similarity), p.required);
    RequiringMore(p.required, SettlementProposal(runId, p, f, similarity).checks);
  }

  lemma ProvedPassesRequired(q: Proposal, required: set<CheckCode>)
    requires Level(q, required) == Proved
    ensures RequiredPass(required, q.checks)
  {
    hide RequiredPass, FirstAmong;
  }

  /** With the shipped set of required checks and no bank tolerance, a settlement is proved if and
      only if it has no reason against it and its receipt is a credit. */
  lemma {:induction false} ProvedExactlyWhenUnopposed(runId: string, p: Policy, f: Facts, similarity: Similarity)
    requires f.gateway != [] && p.required == FIFTEEN && p.bankTolerance == 0
    requires forall g | g in f.journals :: g != []
    ensures CaseLevel(runId, p, f, similarity) == Proved <==> Reasons(p, f) == [] && AllCredits(f)
  {
    var proposal := SettlementProposal(runId, p, f, similarity);
    RequiredPassMeansAllHold(runId, p, f, similarity);
    ExplanationsAreComplete(p, f);
    FirstAmongFinds(Reasons(p, f), HARD_CONTRADICTIONS);
    assert proposal.reasons == Reasons(p, f);
    assert proposal.unique == HardUnique(f) && proposal.ambiguous == IsAmbiguous(f) && proposal.invalid == IsInvalid(f);
    hide SettlementProposal, Reasons, RequiredPass, Pick, SettlementRows, Select, SideTotal, Journal, ComponentsAgree,
         BankAmountAgrees, UtrAgrees, DatesFit, RolesAgree, FirstAmong;
  }

  // ---- the bank side ------------------------------------------------------------------------

  /** What the bank adapter guarantees of its rows. */
  ghost predicate BankRowsAreSound(b: Batch) {
    forall e | e in b.events && e.source == Bank :: e.amount > 0 && (e.kind == BankCredit <==> e.direction == Credit)
  }

  /** A proved case never came from the fall-back on the settlement's reference: a lone row that
      satisfied every condition would have been found by the search. */
  lemma {:induction false} FallbackCannotProve(b: Batch, reference: string, consumed: set<string>)
    requires WellFormed(b) && GatewaySettlement(b, reference) != []
    requires b.policy.Valid() && b.policy.bankTolerance == 0 && BankRowsAreSound(b)
    requires AllHold(b.policy, FactsOf(b, reference, consumed))
    ensures var f := FactsOf(b, reference, consumed);
      !IdentifierConflict(f) && |f.search.groups| == 1 && !f.search.boundedOut && Pick(f).rows == f.search.groups[0]
  {
    var f, p := FactsOf(b, reference, consumed), b.policy;
    ConflictMissesTheAmount(p, f);
    if |f.search.groups| != 1 {
      assert Pick(f).rows == f.anchored && |f.anchored| == 1;
      var row := f.anchored[0];
      var day := Anchor(f.gateway).day;
      LoneRowIsAGroup(b, reference, consumed, row);
      assert false;
    }
  }

  lemma {:induction false} LoneRowIsAGroup(b: Batch, reference: string, consumed: set<string>, row: Event)
    requires WellFormed(b) && GatewaySettlement(b, reference) != []
    requires b.policy.Valid() && b.policy.bankTolerance == 0 && BankRowsAreSound(b)
    requires var f := FactsOf(b, reference, consumed);
      && Pick(f).rows == f.anchored == [row]
      && BankAmountAgrees(b.policy, f) && AllCredits(f) && DatesFit(b.policy, f) && !f.search.boundedOut
    ensures FactsOf(b, reference, consumed).search.groups != []
  {
    var f, p := FactsOf(b, reference, consumed), b.policy;
    var day := Anchor(f.gateway).day;
    var receipts := Receipts(b, day, consumed);
    UtrRowsFacts(b, Anchor(f.gateway).externalRef, consumed);
    ReceiptsFacts(b, day, consumed);
    assert row in f.anchored;
    assert row.amount == Net(f.gateway) by {
      assert Total([row]) == row.amount;
    }
    OrderedIsUnique(receipts);
    assert IsReceipt(b, day, consumed, row);
    assert IsValidGroup([row], receipts, Net(f.gateway), p.grouping.maxGroupSize);
    SearchIsExact(receipts, Net(f.gateway), p.grouping);
  }

  /** PROVED pins down the bank side: the rows are the only group of free receipts in the window
      that adds up to the settlement, and they are all the free rows with the settlement's UTR. */
  lemma {:induction false} ProvedBankIsForced(b: Batch, reference: string, consumed: set<string>)
    requires WellFormed(b) && GatewaySettlement(b, reference) != []
    requires b.policy.Valid() && b.policy.bankTolerance == 0 && BankRowsAreSound(b)
    requires AllHold(b.policy, FactsOf(b, reference, consumed))
    ensures var f := FactsOf(b, reference, consumed);
      var receipts := Receipts(b, Anchor(f.gateway).day, consumed);
      && (forall g :: IsValidGroup(g, receipts, Net(f.gateway), b.policy.grouping.maxGroupSize) <==> g == Pick(f).rows)
      && Pick(f).rows == UtrRows(b, ExpectedUtr(f.gateway), consumed)
      && Pick(f).candidates == Pick(f).rows
  {
    var f, p := FactsOf(b, reference, consumed), b.policy;
    var day := Anchor(f.gateway).day;
    var receipts := Receipts(b, day, consumed);
    FallbackCannotProve(b, reference, consumed);
    ReceiptsFacts(b, day, consumed);
    OrderedIsUnique(receipts);
    SearchIsExact(receipts, Net(f.gateway), p.grouping);
    OnlyGroup(receipts, Net(f.gateway), p.grouping, Pick(f).rows);
    RowsAreAllWithUtr(b, reference, consumed);
  }

  lemma {:induction false} OnlyGroup(candidates: seq<Event>, target: int, g: GroupingPolicy, only: Group)
    requires UniqueIds(candidates) && g.maxValidGroups >= 2
    requires Search(candidates, target, g) == GroupingResult([only], false)
    ensures forall h :: IsValidGroup(h, candidates, target, g.maxGroupSize) <==> h == only
  {
    SearchIsExact(candidates, target, g);
    hide Search, IsValidGroup, InSearchOrder;
    assert only in [only];
  }

  lemma {:induction false} RowsAreAllWithUtr(b: Batch, reference: string, consumed: set<string>)
    requires WellFormed(b) && GatewaySettlement(b, reference) != []
    requires b.policy.Valid() && b.policy.bankTolerance == 0 && BankRowsAreSound(b)
    requires AllHold(b.policy, FactsOf(b, reference, consumed))
    requires !IdentifierConflict(FactsOf(b, reference, consumed))
    ensures var f := FactsOf(b, reference, consumed);
      Pick(f).rows == UtrRows(b, ExpectedUtr(f.gateway), consumed)
  {
    var f := FactsOf(b, reference, consumed);
    var rows, utr := Pick(f).rows, ExpectedUtr(f.gateway);
    PickIsSound(b, reference, consumed);
    UtrRowsFacts(b, utr, consumed);
    assert UtrAgrees(f) && Total(rows) == Net(f.gateway);
    hide Search, Receipts, SelectBankGroup, UtrRows, SettlementRows, GatewaySettlement, Pick;
    forall e | e in rows ensures e in f.exact {
      assert FreeBankRow(b, consumed, e);
    }
    EqualTotalsForceEquality(rows, f.exact);
    if |f.exact| == 1 {
      assert rows[0] in f.exact;
      assert rows[0] == f.exact[0];
    }
  }
}
