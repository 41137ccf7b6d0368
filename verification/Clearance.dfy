/** No false clear: what an auto-cleared decision of a run guarantees. */
module Clearance {
  import opened Events
  import opened Selection
  import opened Grouping
  import opened Context
  import opened Proposals
  import opened SettlementRule
  import opened Gate
  import opened Verdicts
  import opened Proof
  import opened Money
  import opened Pipeline
  import opened Totality

  /** The bank rows are the only group of free receipts in the window that makes up the net, and all the free rows with
      the settlement's reference. */
  ghost predicate BankIsForced(b: Batch, f: Facts, consumed: set<string>)
    requires f.gateway != []
  {
    var receipts := Receipts(b, Anchor(f.gateway).day, consumed);
    && (forall g :: IsValidGroup(g, receipts, Net(f.gateway), b.policy.grouping.maxGroupSize) <==> g == Pick(f).rows)
    && Pick(f).rows == UtrRows(b, ExpectedUtr(f.gateway), consumed)
  }

  /** The money of the case adds up in all three ledgers. */
  ghost predicate MoneyAddsUp(p: Policy, f: Facts) {
    && Total(Pick(f).rows) == Net(f.gateway) == NetAmount(p.signs, f.gateway) == Posted(f, p.bankRole)
    && Posted(f, p.feeRole) == KindAmount(f.gateway, Fee) && Posted(f, p.taxRole) == KindAmount(f.gateway, Tax)
    && Posted(f, p.clearingRole) == Posted(f, p.bankRole) + Posted(f, p.feeRole) + Posted(f, p.taxRole)
    && Total(Select(OtherLines(p, Journal(f)), OnSide(Debit))) == Total(Select(OtherLines(p, Journal(f)), OnSide(Credit)))
  }

  /** A settlement whose bank rows could not have been chosen otherwise, and whose money adds up in all
      three ledgers. `consumed` are the bank rows that earlier settlements took. */
  ghost predicate IsForced(b: Batch, reference: string, consumed: set<string>)
    requires GatewaySettlement(b, reference) != []
  {
    var f := FactsOf(b, reference, consumed);
    BankIsForced(b, f, consumed) && MoneyAddsUp(b.policy, f)
  }

  lemma {:induction false} ProvedIsForced(b: Batch, reference: string, consumed: set<string>)
    requires WellFormed(b) && GatewaySettlement(b, reference) != [] && b.policy.Valid() && BankRowsAreSound(b)
    requires b.policy.ZeroTolerance() && b.policy.StandardAccounts()
    requires GatewayKinds(GatewaySettlement(b, reference)) && AllHold(b.policy, FactsOf(b, reference, consumed))
    ensures IsForced(b, reference, consumed)
  {
    var f := FactsOf(b, reference, consumed);
    assert f.gateway == GatewaySettlement(b, reference);
    hide FactsOf, AllHold, GatewaySettlement, GatewayKinds, WellFormed, BankRowsAreSound, MoneyAddsUp, BankIsForced;
    BankOfProved(b, reference, consumed);
    MoneyOfProved(b.policy, f);
  }

  lemma {:induction false} BankOfProved(b: Batch, reference: string, consumed: set<string>)
    requires WellFormed(b) && GatewaySettlement(b, reference) != [] && b.policy.Valid() && b.policy.bankTolerance == 0 && BankRowsAreSound(b)
    requires AllHold(b.policy, FactsOf(b, reference, consumed))
    ensures BankIsForced(b, FactsOf(b, reference, consumed), consumed)
  {
    ProvedBankIsForced(b, reference, consumed);
    hide FactsOf, AllHold, GatewaySettlement, Receipts, Pick, Net, Anchor, ExpectedUtr, UtrRows, IsValidGroup, WellFormed, BankRowsAreSound;
  }

  lemma {:induction false} MoneyOfProved(p: Policy, f: Facts)
    requires f.gateway != [] && GatewayKinds(f.gateway) && p.ZeroTolerance() && p.StandardAccounts() && AllHold(p, f)
    ensures MoneyAddsUp(p, f)
  {
    hide AllHold, Pick, Net, Journal, OtherLines, GatewayKinds, Select, Total, Posted, ExpectedNet, NetAmount, KindAmount;
    ProvedCaseConservesMoney(p, f);
  }

  /** In a whole run, only settlements are ever cleared, and every cleared one is forced: it is never a
      choice among alternatives, and never out of balance. */
  lemma {:induction false} NoFalseClear(b: Batch, similarity: Similarity, k: nat)
    requires WellFormed(b) && b.policy.Valid() && BankRowsAreSound(b) && UNGUARDED <= b.policy.required
    requires b.policy.ZeroTolerance() && b.policy.StandardAccounts()
    requires forall e | e in b.events && e.source == Gateway :: e.kind in {Payment, Refund, Fee, Tax, Adjustment, EventType.Settlement}
    requires Known(b, SettlementReferences(b)) && Presentable(b, AllCases(b))
    requires k < |ProposalsFrom(b, AllCases(b), similarity)|
    requires Decisions(b, ProposalsFrom(b, AllCases(b), similarity))[k].state == AutoCleared
    ensures k < |SettlementReferences(b)|
    ensures IsForced(b, SettlementReferences(b)[k], ClaimedBank(AllCases(b)[..k]))
  {
    var refs, cases := SettlementReferences(b), AllCases(b);
    var ps := ProposalsFrom(b, cases, similarity);
    assert Level(ps[k], b.policy.required) == Proved by {
      hide Level, ProposalsFrom, Cases, Known, WellFormed, SettlementReferences, OrphanErp;
    }
    hide Cases, Known, SettlementReferences, ProposalsFrom, Level, Decide, WellFormed, OrphanErp, IsForced, UNGUARDED, BankRowsAreSound;
    ProposalAt(b, refs, cases, similarity, k);
    CaseAt(b, refs, k);
    GatewayOnly(b, refs[k]);
    hide FactsOf, ClaimedBank, GatewaySettlement;
    JournalsHaveLines(b, refs, k);
    ProvedUnderUnguarded(b.runId, b.policy, cases[k], similarity);
    ProvedIsForced(b, refs[k], ClaimedBank(cases[..k]));
  }

  lemma {:induction false} GatewayOnly(b: Batch, reference: string)
    requires forall e | e in b.events && e.source == Gateway :: e.kind in {Payment, Refund, Fee, Tax, Adjustment, EventType.Settlement}
    ensures GatewayKinds(GatewaySettlement(b, reference))
  {
    SelectMembers(b.events, GatewayIn(b.scope, reference));
  }

  /** No reason is given, and yet the settlement is not proved. */
  ghost predicate FailsSilently(runId: string, p: Policy, f: Facts, similarity: Similarity)
    requires f.gateway != []
  {
    Reasons(p, f) == [] && CaseLevel(runId, p, f, similarity) != Proved
  }

  /** The gate files the settlement's exception as unresolved for reasons unknown. */
  ghost predicate FiledAsUnresolved(runId: string, p: Policy, f: Facts, similarity: Similarity)
    requires f.gateway != []
  {
    var q := SettlementProposal(runId, p, f, similarity);
    var x := CreateException(runId, q, Decide(runId, q, p), p);
    x.Some? && x.value.reason == UnknownUnresolved
  }

  /** A settlement fails silently if and only if the receipt direction is all that fails; its exception is
      then filed as unresolved. */
  lemma {:induction false} SilentExactly(runId: string, p: Policy, f: Facts, similarity: Similarity)
    requires f.gateway != [] && p.required == FIFTEEN && p.bankTolerance == 0
    requires forall g | g in f.journals :: g != []
    ensures FailsSilently(runId, p, f, similarity) <==> AllButDirection(p, f) && !AllCredits(f)
    ensures FailsSilently(runId, p, f, similarity) ==> FiledAsUnresolved(runId, p, f, similarity)
  {
    hide Reasons, AllButDirection, AllCredits, CaseLevel;
    ExplanationsAreComplete(p, f);
    ProvedExactlyWhenUnopposed(runId, p, f, similarity);
    if FailsSilently(runId, p, f, similarity) {
      SilentIsUnresolved(runId, p, f, similarity);
    }
  }

  lemma {:induction false} SilentIsUnresolved(runId: string, p: Policy, f: Facts, similarity: Similarity)
    requires f.gateway != [] && FailsSilently(runId, p, f, similarity)
    ensures FiledAsUnresolved(runId, p, f, similarity)
  {
    hide Level, Reasons, FirstListed, Members, Features, ProofChecks, SupportChecks, FirstOfEach, HardUnique, IsAmbiguous, IsInvalid,
         FirstAmong, RequiredPass, PRIORITY;
    var q := SettlementProposal(runId, p, f, similarity);
    assert q.reasons == Reasons(p, f);
    hide SettlementProposal;
    NothingListed(PRIORITY);
  }

  lemma {:induction false} NothingListed(order: seq<Reason>)
    ensures FirstListed(order, []) == UnknownUnresolved
  {
    if order != [] {
      NothingListed(order[1..]);
    }
  }
}
