/** No constructor of the kernel ever raises, and exceptions and decisions match one to one. */
module Totality {
  import opened Events
  import opened Selection
  import opened Context
  import opened Proposals
  import opened SettlementRule
  import opened CaseFacts
  import opened Gate
  import opened Verdicts
  import opened Proof
  import opened Pipeline
  import opened Partition

  // ---- evidence -----------------------------------------------------------------------------

  function LinkIds(links: seq<Link>): set<string> {
    set l | l in links :: l.eventId
  }

  lemma {:induction false} EvidenceIsDistinct(es: seq<Event>, purpose: Purpose)
    requires UniqueIds(es)
    ensures DistinctlyCited(EvidenceFor(es, purpose))
    ensures LinkIds(EvidenceFor(es, purpose)) == IdSet(es)
  {
    var links := EvidenceFor(es, purpose);
    forall id ensures id in LinkIds(links) <==> id in IdSet(es) {
      if id in IdSet(es) {
        var e :| e in es && e.eventId == id;
        var i :| 0 <= i < |es| && es[i] == e;
        assert links[i] in links;
      }
    }
  }

  /** A settlement cites each of its rows exactly once. */
  lemma {:induction false} CaseEvidence(b: Batch, reference: string, consumed: set<string>)
    requires Ordered(b.events) && GatewaySettlement(b, reference) != []
    ensures var f := FactsOf(b, reference, consumed);
      var links := FirstOfEach(GatewayLinks(f) + BankLinks(f) + ErpLinks(f));
      && links == GatewayLinks(f) + BankLinks(f) + ErpLinks(f)
      && links != [] && DistinctlyCited(links) && LinkIds(links) == IdSet(Members(f))
  {
    var f := FactsOf(b, reference, consumed);
    MembersOfCase(b, reference, consumed);
    hide FactsOf, Pick, Flatten, Members, Belongs, FirstOfEach, GatewaySettlement, Ordered, DistinctlyCited;
    var rows := f.gateway + Pick(f).candidates + Flatten(f.journals);
    assert IdSet(rows) == IdSet(Members(f));
    LinksOfRows(f);
    hide UniqueIds, IdSet, LinkIds, GatewayLinks, BankLinks, ErpLinks;
    NothingToDrop(GatewayLinks(f) + BankLinks(f) + ErpLinks(f));
  }

  /** The links of a case, one for each of its rows. */
  lemma {:induction false} LinksOfRows(f: Facts)
    requires f.gateway != [] && UniqueIds(f.gateway + Pick(f).candidates + Flatten(f.journals))
    ensures var links := GatewayLinks(f) + BankLinks(f) + ErpLinks(f);
      && links != [] && DistinctlyCited(links)
      && LinkIds(links) == IdSet(f.gateway + Pick(f).candidates + Flatten(f.journals))
  {
    hide Pick, Flatten;
    var rows := f.gateway + Pick(f).candidates + Flatten(f.journals);
    var links := GatewayLinks(f) + BankLinks(f) + ErpLinks(f);
    assert |links| == |rows|;
    assert forall i | 0 <= i < |links| :: links[i].eventId == rows[i].eventId;
    forall id ensures id in LinkIds(links) <==> id in IdSet(rows) {
      SameIds(links, rows, id);
    }
  }

  lemma {:induction false} SameIds(links: seq<Link>, rows: seq<Event>, id: string)
    requires |links| == |rows| && forall i | 0 <= i < |links| :: links[i].eventId == rows[i].eventId
    ensures id in LinkIds(links) <==> id in IdSet(rows)
  {
    if id in LinkIds(links) {
      var i :| 0 <= i < |links| && links[i].eventId == id;
      assert rows[i] in rows;
    }
    if id in IdSet(rows) {
      var i :| 0 <= i < |rows| && rows[i].eventId == id;
      assert links[i] in links;
    }
  }

  // ---- settlements --------------------------------------------------------------------------

  /** A settlement's checks are the sixteen reports, then support checks that nothing requires. */
  lemma {:induction false} ShapeOfChecks(runId: string, p: Policy, f: Facts, similarity: Similarity, i: nat)
    requires f.gateway != [] && i < |SettlementProposal(runId, p, f, similarity).checks|
    ensures var checks := SettlementProposal(runId, p, f, similarity).checks;
      && |checks| >= 16
      && (i < 16 ==> Reports(p, f, checks[i], CODES[i]))
      && (i >= 16 ==> !checks[i].required && checks[i].tolerance == None)
  {
    hide Features, ProofChecks, CitedBank, WeightOf, Reports, Members, Reasons, FirstOfEach, HardUnique, IsAmbiguous, IsInvalid, ExpectedNet, Net;
    var features := Features(p, f, similarity);
    var proof, support := ProofChecks(p, f), SupportChecks(p, features, CitedBank(f));
    var checks := SettlementProposal(runId, p, f, similarity).checks;
    assert checks == proof + support;
    hide SettlementProposal;
    ProofChecksReport(p, f, 0);
    if i < 16 {
      ProofChecksReport(p, f, i);
      assert checks[i] == proof[i];
    } else {
      assert checks[i] == support[i - 16];
    }
  }

  lemma {:induction false} SettlementChecksAccepted(runId: string, p: Policy, f: Facts, similarity: Similarity)
    requires f.gateway != [] && p.Valid()
    ensures ProposalAccepted(SettlementProposal(runId, p, f, similarity))
  {
    hide SettlementProposal, Holds, CODES, FIFTEEN;
    var checks := SettlementProposal(runId, p, f, similarity).checks;
    forall i: nat | i < |checks| ensures CheckAccepted(checks[i]) {
      ShapeOfChecks(runId, p, f, similarity, i);
    }
  }

  ghost predicate AllRequiredPass(checks: seq<Check>) {
    forall i | 0 <= i < |checks| && checks[i].required :: checks[i].passed
  }

  /** The required checks of a settlement all pass exactly when the fifteen conditions hold. */
  lemma {:induction false} RequiredChecksPassed(runId: string, p: Policy, f: Facts, similarity: Similarity)
    requires f.gateway != []
    ensures SettlementProposal(runId, p, f, similarity).checks != []
    ensures SettlementProposal(runId, p, f, similarity).checks[0].required
    ensures AllHold(p, f) <==> AllRequiredPass(SettlementProposal(runId, p, f, similarity).checks)
  {
    var checks := SettlementProposal(runId, p, f, similarity).checks;
    assert checks != [] by {
      hide CheckAccepted, Reports;
      ProofChecksReport(p, f, 0);
    }
    ShapeOfChecks(runId, p, f, similarity, 0);
    AllHoldMeansEachHolds(p, f);
    hide SettlementProposal, Holds, AllHold, CheckAccepted;
    if AllHold(p, f) {
      forall i: nat | i < |checks| && checks[i].required ensures checks[i].passed {
        ShapeOfChecks(runId, p, f, similarity, i);
      }
    }
    if AllRequiredPass(checks) {
      forall code | code in FIFTEEN ensures Holds(p, f, code) {
        ShapeOfChecks(runId, p, f, similarity, Position(code));
      }
    }
  }

  lemma {:induction false} DistinctIds(rows: seq<Event>)
    requires Ordered(rows)
    ensures DistinctTexts(Ids(rows))
  {
    OrderedIsUnique(rows);
  }

  /** By construction the gate can only offend its decision type by proving a proposal with a
      failed required check, or none, or no evidence. */
  lemma {:induction false} GateAgainstConstructor(runId: string, proposal: Proposal, policy: Policy)
    requires proposal.eventIds != [] && DistinctTexts(proposal.eventIds)
    requires proposal.checks != [] && proposal.checks[0].required && proposal.links != []
    ensures DecisionAccepted(Decide(runId, proposal, policy))
      <==> (Level(proposal, policy.required) == Proved ==> AllRequiredPass(proposal.checks))
  {
    hide RequiredPass, FirstAmong, DistinctTexts;
  }

  /** A settlement's decision is accepted unless it would be PROVED while one of the fifteen
      conditions fails, which takes a policy that does not require all fifteen. */
  lemma {:induction false} SettlementDecisionAccepted(b: Batch, reference: string, consumed: set<string>, similarity: Similarity)
    requires Ordered(b.events) && GatewaySettlement(b, reference) != []
    ensures var f := FactsOf(b, reference, consumed);
      DecisionAccepted(Decide(b.runId, SettlementProposal(b.runId, b.policy, f, similarity), b.policy))
      <==> (CaseLevel(b.runId, b.policy, f, similarity) == Proved ==> AllHold(b.policy, f))
  {
    var f := FactsOf(b, reference, consumed);
    var proposal := SettlementProposal(b.runId, b.policy, f, similarity);
    MembersOfCase(b, reference, consumed);
    CaseEvidence(b, reference, consumed);
    assert f.gateway[0] in f.gateway;
    assert f.gateway[0] in Members(f);
    RequiredChecksPassed(b.runId, b.policy, f, similarity);
    assert proposal.eventIds == Ids(Members(f)) && proposal.links == FirstOfEach(GatewayLinks(f) + BankLinks(f) + ErpLinks(f));
    hide FactsOf, SettlementProposal, Members, FirstOfEach, AllHold, Belongs, Pick, Flatten, Level, Decide, DecisionAccepted,
         GatewayLinks, BankLinks, ErpLinks, DistinctTexts, GatewaySettlement, Ordered, AllRequiredPass, DistinctlyCited;
    DistinctIds(Members(f));
    assert |Ids(Members(f))| == |Members(f)|;
    GateAgainstConstructor(b.runId, proposal, b.policy);
  }

  // ---- orphans ------------------------------------------------------------------------------

  lemma {:induction false} OrphanAccepted(runId: string, policy: Policy, rows: seq<Event>, reason: Reason, key: string)
    requires rows != [] && Ordered(rows)
    ensures var proposal := OrphanProposal(runId, policy, rows, reason, key);
      && ProposalAccepted(proposal) && DecisionAccepted(Decide(runId, proposal, policy))
      && Decide(runId, proposal, policy).level == Ambiguous
      && proposal.amountAtRisk >= 0 && proposal.links != [] && proposal.rules == RULES
  {
    DistinctIds(rows);
    hide Ordered, LargestAmount;
  }

  // ---- the whole run ------------------------------------------------------------------------

  /** What the constructors need to know of a proposal. */
  ghost predicate Sound(runId: string, policy: Policy, proposal: Proposal) {
    ProposalAccepted(proposal) && proposal.amountAtRisk >= 0 && proposal.links != [] && proposal.rules == RULES
  }

  lemma ProposalParts(runId: string, p: Policy, f: Facts, similarity: Similarity)
    requires f.gateway != []
    ensures var proposal := SettlementProposal(runId, p, f, similarity);
      && proposal.links == FirstOfEach(GatewayLinks(f) + BankLinks(f) + ErpLinks(f))
      && proposal.amountAtRisk >= 0 && proposal.rules == RULES
  {
    hide FirstOfEach, GatewayLinks, BankLinks, ErpLinks, Members, ProofChecks, SupportChecks, Features, Reasons, Net, ExpectedNet,
         IsAmbiguous, IsInvalid, HardUnique;
  }

  lemma {:induction false} SettlementIsSound(b: Batch, reference: string, consumed: set<string>, similarity: Similarity)
    requires Ordered(b.events) && GatewaySettlement(b, reference) != [] && b.policy.Valid()
    ensures Sound(b.runId, b.policy, SettlementProposal(b.runId, b.policy, FactsOf(b, reference, consumed), similarity))
  {
    var f := FactsOf(b, reference, consumed);
    var proposal := SettlementProposal(b.runId, b.policy, f, similarity);
    ProposalParts(b.runId, b.policy, f, similarity);
    hide FactsOf, SettlementProposal, FirstOfEach, ProposalAccepted, GatewayLinks, BankLinks, ErpLinks, Members, LinkIds,
         DistinctlyCited, GatewaySettlement, IdSet, Ordered;
    CaseEvidence(b, reference, consumed);
    SettlementChecksAccepted(b.runId, b.policy, f, similarity);
  }

  /** The `i`-th proposal is sound, and its decision is accepted unless it comes from a settlement
      that would be PROVED while one of the fifteen conditions fails. */
  lemma {:induction false} ProposalAt(b: Batch, refs: seq<string>, cases: seq<Facts>, similarity: Similarity, i: nat)
    requires WellFormed(b) && Known(b, refs) && cases == Cases(b, refs) && Presentable(b, cases) && b.policy.Valid()
    requires i < |ProposalsFrom(b, cases, similarity)|
    ensures var proposal := ProposalsFrom(b, cases, similarity)[i];
      && Sound(b.runId, b.policy, proposal)
      && (DecisionAccepted(Decide(b.runId, proposal, b.policy))
          <==> (i < |cases| && CaseLevel(b.runId, b.policy, cases[i], similarity) == Proved ==> AllHold(b.policy, cases[i])))
      && (i >= |cases| ==> Level(proposal, b.policy.required) != Proved)
      && (i < |cases| ==> Level(proposal, b.policy.required) == CaseLevel(b.runId, b.policy, cases[i], similarity))
  {
    hide Cases, Members, OrphanBank, OrphanErp, Known, Sound, DecisionAccepted, Decide, AllHold, SettlementProposal,
         OrphanProposal, WellFormed, FactsOf, Level, ClaimedBank, GatewaySettlement;
    assert Ordered(b.events) by { InOrder(b); }
    hide Ordered;
    var n, m := |cases|, |OrphanBank(b, cases)|;
    if i < n {
      CaseAt(b, refs, i);
      CaseProposalAt(b, cases, similarity, i);
      SettlementIsSound(b, refs[i], ClaimedBank(cases[..i]), similarity);
      SettlementDecisionAccepted(b, refs[i], ClaimedBank(cases[..i]), similarity);
    } else if i < n + m {
      var row := OrphanBank(b, cases)[i - n];
      assert ProposalsFrom(b, cases, similarity)[i] == BankOrphanProposals(b, OrphanBank(b, cases))[i - n];
      SingletonOrdered(row);
      OrphanIsSound(b, [row], OrphanBankCredit, "");
    } else {
      var rows := OrphanErp(b, cases)[i - n - m];
      assert ProposalsFrom(b, cases, similarity)[i] == ErpOrphanProposals(b, OrphanErp(b, cases))[i - n - m];
      OrphanJournal(b, cases, i - n - m);
      OrphanIsSound(b, rows, OrphanErpPosting, JournalId(rows[0].recordId));
    }
  }

  lemma InOrder(b: Batch)
    requires WellFormed(b)
    ensures Ordered(b.events)
  {
  }

  lemma SingletonOrdered(e: Event)
    ensures Ordered([e])
  {
  }

  lemma {:induction false} OrphanIsSound(b: Batch, rows: seq<Event>, reason: Reason, key: string)
    requires rows != [] && Ordered(rows)
    ensures var proposal := OrphanProposal(b.runId, b.policy, rows, reason, key);
      && Sound(b.runId, b.policy, proposal) && DecisionAccepted(Decide(b.runId, proposal, b.policy))
      && Level(proposal, b.policy.required) == Ambiguous
  {
    OrphanAccepted(b.runId, b.policy, rows, reason, key);
    hide Ordered, ProposalAccepted, DecisionAccepted;
  }

  lemma {:induction false} ExceptionsComeFromProposals(b: Batch, ps: seq<Proposal>, x: ExceptionCase)
    ensures x in Exceptions(b, ps)
      <==> exists i :: 0 <= i < |ps| && CreateException(b.runId, ps[i], Decide(b.runId, ps[i], b.policy), b.policy) == Some(x)
  {
    hide CreateException, Decide;
    if ps != [] {
      var init := ps[..|ps| - 1];
      ExceptionsComeFromProposals(b, init, x);
      assert ps == init + [ps[|ps| - 1]];
    }
  }

  function NotProved(ds: seq<Decision>): nat {
    if ds == [] then 0
    else NotProved(ds[..|ds| - 1]) + (if ds[|ds| - 1].level == Proved then 0 else 1)
  }

  /** Exactly one exception for each decision that is not PROVED, none for the others. */
  lemma {:induction false} OneExceptionPerOpenDecision(b: Batch, ps: seq<Proposal>)
    ensures |Exceptions(b, ps)| == NotProved(Decisions(b, ps))
  {
    hide Decide;
    if ps != [] {
      var init := ps[..|ps| - 1];
      OneExceptionPerOpenDecision(b, init);
      assert Decisions(b, ps)[..|ps| - 1] == Decisions(b, init);
    }
  }

  lemma {:induction false} ExceptionIsAccepted(b: Batch, proposal: Proposal, x: ExceptionCase)
    requires Sound(b.runId, b.policy, proposal)
    requires CreateException(b.runId, proposal, Decide(b.runId, proposal, b.policy), b.policy) == Some(x)
    ensures ExceptionAccepted(x)
  {
    hide ProposalAccepted, FirstListed, Level;
  }

  /** Does every settlement that the gate would prove meet all fifteen conditions? */
  ghost predicate NeverUnderProved(b: Batch, cases: seq<Facts>, similarity: Similarity)
    requires Grounded(cases)
  {
    forall i | 0 <= i < |cases| && CaseLevel(b.runId, b.policy, cases[i], similarity) == Proved :: AllHold(b.policy, cases[i])
  }

  lemma {:induction false} EveryProposalIsSound(b: Batch, refs: seq<string>, cases: seq<Facts>, similarity: Similarity)
    requires WellFormed(b) && Known(b, refs) && cases == Cases(b, refs) && Presentable(b, cases) && b.policy.Valid()
    ensures forall i | 0 <= i < |ProposalsFrom(b, cases, similarity)| ::
      Sound(b.runId, b.policy, ProposalsFrom(b, cases, similarity)[i])
  {
    hide Cases, Known, ProposalsFrom, DecisionAccepted, Decide, AllHold, WellFormed, CaseLevel, OrphanErp, Level, Sound;
    forall i: nat | i < |ProposalsFrom(b, cases, similarity)|
      ensures Sound(b.runId, b.policy, ProposalsFrom(b, cases, similarity)[i])
    {
      ProposalAt(b, refs, cases, similarity, i);
    }
  }

  lemma {:induction false} EveryExceptionIsAccepted(b: Batch, ps: seq<Proposal>)
    requires forall i | 0 <= i < |ps| :: Sound(b.runId, b.policy, ps[i])
    ensures forall j | 0 <= j < |Exceptions(b, ps)| :: ExceptionAccepted(Exceptions(b, ps)[j])
  {
    hide Exceptions, Decide, CreateException, Sound, ExceptionAccepted;
    forall j | 0 <= j < |Exceptions(b, ps)| ensures ExceptionAccepted(Exceptions(b, ps)[j]) {
      var x := Exceptions(b, ps)[j];
      ExceptionsComeFromProposals(b, ps, x);
      var i :| 0 <= i < |ps| && CreateException(b.runId, ps[i], Decide(b.runId, ps[i], b.policy), b.policy) == Some(x);
      ExceptionIsAccepted(b, ps[i], x);
    }
  }

  ghost predicate EveryDecisionAccepted(b: Batch, ps: seq<Proposal>) {
    forall i | 0 <= i < |ps| :: DecisionAccepted(Decide(b.runId, ps[i], b.policy))
  }

  lemma {:induction false} DecisionsAccepted(b: Batch, refs: seq<string>, cases: seq<Facts>, similarity: Similarity)
    requires WellFormed(b) && Known(b, refs) && cases == Cases(b, refs) && Presentable(b, cases) && b.policy.Valid()
    ensures EveryDecisionAccepted(b, ProposalsFrom(b, cases, similarity)) <==> NeverUnderProved(b, cases, similarity)
  {
    hide Cases, Known, ProposalsFrom, DecisionAccepted, Decide, AllHold, WellFormed, CaseLevel, OrphanErp, Level, Sound;
    var ps := ProposalsFrom(b, cases, similarity);
    MoreProposalsThanCases(b, cases, similarity);
    forall i: nat | i < |ps|
      ensures DecisionAccepted(Decide(b.runId, ps[i], b.policy))
        <==> (i < |cases| && CaseLevel(b.runId, b.policy, cases[i], similarity) == Proved ==> AllHold(b.policy, cases[i]))
    {
      ProposalAt(b, refs, cases, similarity, i);
    }
  }

  lemma AcceptedInParts(b: Batch, ps: seq<Proposal>)
    requires forall i | 0 <= i < |ps| :: Sound(b.runId, b.policy, ps[i])
    ensures Accepted(KernelResult(ps, Decisions(b, ps), Exceptions(b, ps)))
      <==> EveryDecisionAccepted(b, ps) && forall j | 0 <= j < |Exceptions(b, ps)| :: ExceptionAccepted(Exceptions(b, ps)[j])
  {
    hide DecisionAccepted, Decide, ProposalAccepted, ExceptionAccepted, Exceptions;
    var ds := Decisions(b, ps);
    assert |ds| == |ps| && forall i | 0 <= i < |ps| :: ds[i] == Decide(b.runId, ps[i], b.policy);
  }

  /** Only a settlement that the gate proves against a failed hard check can stop the kernel. */
  lemma {:induction false} RaisesWhenUnderProved(b: Batch, similarity: Similarity)
    requires WellFormed(b) && b.policy.Valid()
    requires Known(b, SettlementReferences(b)) && Presentable(b, AllCases(b))
    ensures Accepted(Kernel(b, similarity)) <==> NeverUnderProved(b, AllCases(b), similarity)
  {
    var refs, cases := SettlementReferences(b), AllCases(b);
    hide Cases, SettlementReferences, Known, ProposalsFrom, WellFormed, Accepted, NeverUnderProved, EveryDecisionAccepted,
         Exceptions, OrphanErp, Sound, ExceptionAccepted, Decisions;
    var ps := ProposalsFrom(b, cases, similarity);
    EveryProposalIsSound(b, refs, cases, similarity);
    EveryExceptionIsAccepted(b, ps);
    DecisionsAccepted(b, refs, cases, similarity);
    AcceptedInParts(b, ps);
  }

  lemma MoreProposalsThanCases(b: Batch, cases: seq<Facts>, similarity: Similarity)
    requires Presentable(b, cases)
    ensures |cases| <= |ProposalsFrom(b, cases, similarity)|
  {
    hide OrphanBank, OrphanErp, CaseProposals;
  }

  /** The three conditions whose failure the gate itself does not notice: it neither contradicts, nor makes
      the case ambiguous, invalid or not unique. */
  const UNGUARDED: set<CheckCode> := {BankReceiptDirection, BankReceiptReference, BankReceiptDate}

  lemma {:induction false} ReasonsForFailures(p: Policy, f: Facts)
    requires f.gateway != []
    ensures !ComponentsAgree(p, f) ==> SettlementComponentMismatch in Reasons(p, f)
    ensures BankPresent(f) && !BankAmountAgrees(p, f) ==> BankAmountMismatch in Reasons(p, f)
    ensures Balanced(f) && !RolesAgree(p, f) ==> ErpPostingMismatch in Reasons(p, f)
    ensures IdentifierConflict(f) ==> DuplicateIdentifier in Reasons(p, f)
  {
    WithoutRepeatsMembers(RawReasons(p, f));
    hide WithoutRepeats, Pick, SettlementRows, Select, Total, SideTotal, Journal, IdentifierConflict, ComponentsAgree,
         BankAmountAgrees, UtrAgrees, DatesFit, RolesAgree, BankPresent, Balanced, IsAmbiguous, IsInvalid, ErpPresent;
  }

  /** The twelve conditions that the gate sees to by itself. */
  ghost predicate GuardedHold(p: Policy, f: Facts) {
    && SettlementUnique(f) && ComponentsAgree(p, f) && BankPresent(f) && BankAmountAgrees(p, f) && BankUnique(f)
    && ErpPresent(f) && ErpUnique(f) && Balanced(f) && RolesAgree(p, f)
  }

  /** The three that it leaves to the policy. */
  ghost predicate UnguardedHold(p: Policy, f: Facts)
    requires f.gateway != []
  {
    AllCredits(f) && UtrAgrees(f) && DatesFit(p, f)
  }

  lemma {:induction false} ProvedIsUnopposed(q: Proposal, required: set<CheckCode>)
    requires Level(q, required) == Proved
    ensures q.unique && !q.ambiguous && !q.invalid && forall r | r in q.reasons :: r !in HARD_CONTRADICTIONS
  {
    hide RequiredPass, FirstAmong, HARD_CONTRADICTIONS;
    FirstAmongFinds(q.reasons, HARD_CONTRADICTIONS);
  }

  lemma {:induction false} UnopposedIsGuarded(p: Policy, f: Facts)
    requires f.gateway != [] && (forall g | g in f.journals :: g != [])
    requires HardUnique(f) && !IsInvalid(f) && forall r | r in Reasons(p, f) :: r !in HARD_CONTRADICTIONS
    ensures GuardedHold(p, f) && !IdentifierConflict(f)
  {
    hide Reasons, Pick, SettlementRows, SideTotal, ComponentsAgree, BankAmountAgrees, RolesAgree, IdentifierConflict;
    ReasonsForFailures(p, f);
    assert f.journals[0] in f.journals;
  }

  /** Of a settlement that the gate proves the twelve other conditions hold, whatever the policy requires. */
  lemma {:induction false} GateGuardsTheRest(runId: string, p: Policy, f: Facts, similarity: Similarity)
    requires f.gateway != [] && (forall g | g in f.journals :: g != []) && CaseLevel(runId, p, f, similarity) == Proved
    ensures GuardedHold(p, f) && !IdentifierConflict(f)
    ensures AllHold(p, f) <==> UnguardedHold(p, f)
  {
    hide SettlementProposal, Reasons, Level, HardUnique, IsAmbiguous, IsInvalid, IdentifierConflict, AllCredits, UtrAgrees, DatesFit,
         SettlementUnique, ComponentsAgree, BankPresent, BankAmountAgrees, BankUnique, ErpPresent, ErpUnique, Balanced, RolesAgree;
    FlagsOf(runId, p, f, similarity);
    ProvedIsUnopposed(SettlementProposal(runId, p, f, similarity), p.required);
    UnopposedIsGuarded(p, f);
  }

  /** And where the twelve hold, the gate has nothing against the settlement but what the policy may ask of the three. */
  lemma {:induction false} OnlyUnguardedReasons(p: Policy, f: Facts)
    requires f.gateway != [] && GuardedHold(p, f) && !IdentifierConflict(f)
    ensures HardUnique(f) && !IsAmbiguous(f) && !IsInvalid(f)
    ensures forall r | r in Reasons(p, f) :: r in {ReferenceMismatch, BankDateOutOfRange}
  {
    WithoutRepeatsMembers(RawReasons(p, f));
    hide ComponentsAgree, BankPresent, BankAmountAgrees, AllCredits, UtrAgrees, DatesFit, Balanced, IdentifierConflict, SettlementUnique,
         WithoutRepeats, SettlementRows, Pick, RolesAgree;
  }

  lemma {:induction false} GateProves(q: Proposal, required: set<CheckCode>)
    requires q.unique && !q.ambiguous && !q.invalid && RequiredPass(required, q.checks)
    requires forall r | r in q.reasons :: r in {ReferenceMismatch, BankDateOutOfRange}
    ensures Level(q, required) == Proved
  {
    hide RequiredPass;
    FirstAmongFinds(q.reasons, HARD_CONTRADICTIONS);
  }

  /** What a policy asks of a settlement: the conditions of the hard checks it requires, and of any other check it
      requires a report that says so. */
  ghost predicate RequiredHold(runId: string, p: Policy, f: Facts, similarity: Similarity)
    requires f.gateway != []
  {
    forall code | code in p.required ::
      if code in FIFTEEN then Holds(p, f, code) else Verdict(SettlementProposal(runId, p, f, similarity).checks, code) == Some(true)
  }

  /** Do the facts of a settlement meet the twelve conditions and whatever the policy requires? */
  ghost predicate Provable(runId: string, p: Policy, f: Facts, similarity: Similarity)
    requires f.gateway != []
  {
    GuardedHold(p, f) && !IdentifierConflict(f) && RequiredHold(runId, p, f, similarity)
  }

  lemma {:induction false} RequiredHoldExactly(runId: string, p: Policy, f: Facts, similarity: Similarity)
    requires f.gateway != []
    ensures RequiredHold(runId, p, f, similarity) <==> RequiredPass(p.required, SettlementProposal(runId, p, f, similarity).checks)
  {
    hide SettlementProposal, Holds, FIFTEEN, Verdict;
    forall code | code in FIFTEEN
      ensures Verdict(SettlementProposal(runId, p, f, similarity).checks, code) == Some(Holds(p, f, code))
    {
      VerdictIsCondition(runId, p, f, similarity, code);
    }
  }

  /** The gate's proof in terms of the facts, for any policy. */
  lemma {:induction false} ProvedExactly(runId: string, p: Policy, f: Facts, similarity: Similarity)
    requires f.gateway != [] && forall g | g in f.journals :: g != []
    ensures CaseLevel(runId, p, f, similarity) == Proved <==> Provable(runId, p, f, similarity)
  {
    var q := SettlementProposal(runId, p, f, similarity);
    hide SettlementProposal, Reasons, GuardedHold, RequiredHold, RequiredPass, Level, IdentifierConflict, HardUnique, IsAmbiguous, IsInvalid,
         UnguardedHold, AllHold;
    FlagsOf(runId, p, f, similarity);
    RequiredHoldExactly(runId, p, f, similarity);
    if CaseLevel(runId, p, f, similarity) == Proved {
      GateGuardsTheRest(runId, p, f, similarity);
      ProvedPassesRequired(q, p.required);
    }
    if Provable(runId, p, f, similarity) {
      OnlyUnguardedReasons(p, f);
      GateProves(q, p.required);
    }
  }

  /** With no bank tolerance and only hard checks required, both can be read off the rows and the policy. */
  lemma {:induction false} ProvableFromFacts(runId: string, p: Policy, f: Facts, similarity: Similarity)
    requires f.gateway != [] && p.bankTolerance == 0 && p.required <= FIFTEEN
    ensures Provable(runId, p, f, similarity) <==> GuardedHold(p, f) && forall code | code in p.required :: Holds(p, f, code)
  {
    hide SettlementProposal, Holds, FIFTEEN, Verdict, Pick, ComponentsAgree, RolesAgree, Balanced;
    ConflictMissesTheAmount(p, f);
  }

  lemma {:induction false} SlipsExactly(runId: string, p: Policy, f: Facts, similarity: Similarity)
    requires f.gateway != [] && forall g | g in f.journals :: g != []
    ensures CaseLevel(runId, p, f, similarity) == Proved && !AllHold(p, f) <==> Provable(runId, p, f, similarity) && !UnguardedHold(p, f)
  {
    hide Provable, UnguardedHold, AllHold, CaseLevel, GuardedHold, IdentifierConflict;
    ProvedExactly(runId, p, f, similarity);
    if CaseLevel(runId, p, f, similarity) == Proved {
      GateGuardsTheRest(runId, p, f, similarity);
    }
  }

  /** Does every settlement that meets the twelve conditions and the policy's own also meet the three? */
  ghost predicate NoneSlips(b: Batch, cases: seq<Facts>, similarity: Similarity)
    requires Grounded(cases)
  {
    forall i | 0 <= i < |cases| && Provable(b.runId, b.policy, cases[i], similarity) :: UnguardedHold(b.policy, cases[i])
  }

  lemma {:induction false} NoneSlipsExactly(b: Batch, refs: seq<string>, cases: seq<Facts>, similarity: Similarity)
    requires WellFormed(b) && Known(b, refs) && cases == Cases(b, refs) && Grounded(cases)
    ensures NeverUnderProved(b, cases, similarity) <==> NoneSlips(b, cases, similarity)
  {
    hide Cases, Known, WellFormed, Provable, UnguardedHold, AllHold, CaseLevel;
    forall i: nat | i < |cases|
      ensures (CaseLevel(b.runId, b.policy, cases[i], similarity) == Proved ==> AllHold(b.policy, cases[i]))
        <==> (Provable(b.runId, b.policy, cases[i], similarity) ==> UnguardedHold(b.policy, cases[i]))
    {
      JournalsHaveLines(b, refs, i);
      SlipsExactly(b.runId, b.policy, cases[i], similarity);
    }
  }

  /** The kernel raises exactly when some settlement meets the twelve conditions that the gate guards and those that
      the policy requires, yet fails receipt direction, reference or date. Nothing else in a well-formed batch can
      stop it. */
  lemma {:induction false} KernelRaisesExactly(b: Batch, similarity: Similarity)
    requires WellFormed(b) && b.policy.Valid()
    requires Known(b, SettlementReferences(b)) && Presentable(b, AllCases(b))
    ensures Outcome(b, similarity) == if NoneSlips(b, AllCases(b), similarity) then Ok(Kernel(b, similarity)) else Err(Raised)
  {
    hide Cases, SettlementReferences, Known, WellFormed, Accepted, Kernel, NoneSlips, NeverUnderProved, OrphanErp;
    RaisesWhenUnderProved(b, similarity);
    NoneSlipsExactly(b, SettlementReferences(b), AllCases(b), similarity);
  }

  /** So a policy that requires those three checks can never have a failed hard check proved. */
  lemma {:induction false} ProvedUnderUnguarded(runId: string, p: Policy, f: Facts, similarity: Similarity)
    requires f.gateway != [] && (forall g | g in f.journals :: g != []) && UNGUARDED <= p.required
    requires CaseLevel(runId, p, f, similarity) == Proved
    ensures AllHold(p, f)
  {
    hide AllHold, SettlementProposal, Level, RequiredPass, AllCredits, UtrAgrees, DatesFit, FIFTEEN, Verdict, GuardedHold, IdentifierConflict;
    GateGuardsTheRest(runId, p, f, similarity);
    UnguardedAreHard();
    ConditionBehind(runId, p, f, similarity, BankReceiptDirection);
    ConditionBehind(runId, p, f, similarity, BankReceiptReference);
    ConditionBehind(runId, p, f, similarity, BankReceiptDate);
  }

  lemma UnguardedAreHard()
    ensures BankReceiptDirection in FIFTEEN && BankReceiptReference in FIFTEEN && BankReceiptDate in FIFTEEN
  {
  }

  /** Looking a hard check up among all checks of a proposal finds its condition. */
  lemma {:induction false} VerdictIsCondition(runId: string, p: Policy, f: Facts, similarity: Similarity, code: CheckCode)
    requires f.gateway != [] && code in FIFTEEN
    ensures Verdict(SettlementProposal(runId, p, f, similarity).checks, code) == Some(Holds(p, f, code))
  {
    var features := Features(p, f, similarity);
    var proof, support := ProofChecks(p, f), SupportChecks(p, features, CitedBank(f));
    assert SettlementProposal(runId, p, f, similarity).checks == proof + support;
    hide SettlementProposal, Features, ProofChecks, SupportChecks, Holds, CitedBank, FIFTEEN, Verdict;
    HardVerdict(p, f, code);
    SupportIsSilent(p, features, CitedBank(f), code);
    VerdictConcat(proof, support, code);
  }

  /** Behind every required hard check of a proved settlement stands its condition. */
  lemma {:induction false} ConditionBehind(runId: string, p: Policy, f: Facts, similarity: Similarity, code: CheckCode)
    requires f.gateway != [] && code in FIFTEEN
    ensures CaseLevel(runId, p, f, similarity) == Proved && code in p.required ==> Holds(p, f, code)
  {
    hide SettlementProposal, Holds, FIFTEEN, Verdict, Level;
    VerdictIsCondition(runId, p, f, similarity, code);
    if CaseLevel(runId, p, f, similarity) == Proved {
      ProvedPassesRequired(SettlementProposal(runId, p, f, similarity), p.required);
    }
  }

  lemma {:induction false} JournalsHaveLines(b: Batch, refs: seq<string>, i: nat)
    requires WellFormed(b) && Known(b, refs) && i < |refs|
    ensures forall g | g in Cases(b, refs)[i].journals :: g != []
  {
    CaseAt(b, refs, i);
    hide Cases, Known, ClaimedBank, GatewaySettlement, Journals, ErpLines, UtrRows, Receipts;
    ErpFacts(b, refs[i]);
    JournalsPartition(ErpLines(b, refs[i]));
  }

  /** The kernel is total: with a policy that requires the three unguarded checks, as the shipped one
      does, every well-formed batch gets its decisions and exceptions. */
  lemma {:induction false} KernelIsTotal(b: Batch, similarity: Similarity)
    requires WellFormed(b) && b.policy.Valid() && UNGUARDED <= b.policy.required
    requires Known(b, SettlementReferences(b)) && Presentable(b, AllCases(b))
    ensures Outcome(b, similarity) == Ok(Kernel(b, similarity))
  {
    var cases := AllCases(b);
    RaisesWhenUnderProved(b, similarity);
    hide Cases, SettlementReferences, Known, AllHold, WellFormed, CaseLevel, Accepted, OrphanErp, Kernel, UNGUARDED;
    forall i: nat | i < |cases| && CaseLevel(b.runId, b.policy, cases[i], similarity) == Proved
      ensures AllHold(b.policy, cases[i])
    {
      JournalsHaveLines(b, SettlementReferences(b), i);
      ProvedUnderUnguarded(b.runId, b.policy, cases[i], similarity);
    }
  }
}
