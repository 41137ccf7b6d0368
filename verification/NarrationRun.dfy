/** Two runs whose rows differ only in narration reach the same verdicts. */
module NarrationRun {
  import opened Events
  import opened Selection
  import opened Context
  import opened Proposals
  import opened SettlementRule
  import opened Gate
  import opened Verdicts
  import opened Proof
  import opened Pipeline
  import opened Partition
  import opened Totality
  import opened Renaming
  import opened Mirror
  import opened Invariance
  import opened MirrorRun
  import opened MirrorSweep
  import opened Rerun
  import opened CorrectionLoop
  import opened Narration

  // ---- the gate -----------------------------------------------------------------------------

  lemma {:induction false} VerdictOfOthers(checks: seq<Check>, code: CheckCode)
    requires code != Support(NarrationFeature)
    ensures Verdict(OtherChecks(checks), code) == Verdict(checks, code)
  {
    if checks != [] {
      var init, last := checks[..|checks| - 1], checks[|checks| - 1];
      assert checks == init + [last];
      VerdictOfOthers(init, code);
      OneCheck(last, code);
      hide Verdict, OtherChecks;
      OtherChecksConcat(init, [last]);
      VerdictConcat(init, [last], code);
      VerdictConcat(OtherChecks(init), OtherChecks([last]), code);
    }
  }

  lemma OneCheck(c: Check, code: CheckCode)
    requires code != Support(NarrationFeature)
    ensures Verdict(OtherChecks([c]), code) == Verdict([c], code)
  {
    assert OtherChecks([c]) == if c.code == Support(NarrationFeature) then [] else [c];
  }

  lemma {:induction false} RequiredPassOfOthers(required: set<CheckCode>, checks: seq<Check>)
    requires Support(NarrationFeature) !in required
    ensures RequiredPass(required, OtherChecks(checks)) <==> RequiredPass(required, checks)
  {
    hide Verdict, OtherChecks;
    forall code | code in required ensures Verdict(OtherChecks(checks), code) == Verdict(checks, code) {
      VerdictOfOthers(checks, code);
    }
  }

  /** A decision without the narration check. */
  function WithoutNarrationCheck(d: Decision): Decision {
    d.(checks := OtherChecks(d.checks))
  }

  /** Unless a policy requires the narration check itself, the gate decides alike on proposals that
      differ only in it, and files the very same exception. */
  lemma {:induction false} GateIgnoresNarration(runId: string, policy: Policy, q: Proposal, q': Proposal)
    requires WithoutNarration(q) == WithoutNarration(q') && Support(NarrationFeature) !in policy.required
    ensures WithoutNarrationCheck(Decide(runId, q, policy)) == WithoutNarrationCheck(Decide(runId, q', policy))
    ensures CreateException(runId, q, Decide(runId, q, policy), policy)
         == CreateException(runId, q', Decide(runId, q', policy), policy)
  {
    RequiredPassOfOthers(policy.required, q.checks);
    RequiredPassOfOthers(policy.required, q'.checks);
    hide OtherChecks, OtherFeatures, RequiredPass, FirstAmong, FirstListed;
    assert q.reasons == q'.reasons;
  }

  // ---- the run ------------------------------------------------------------------------------

  ghost predicate Narrated(b: Batch, m: Batch, r: Renaming) {
    Mirrors(b, m, r, []) && OnlyNarrates(r, b.runId) && m.runId == b.runId
  }

  lemma {:induction false} NarratedCase(b: Batch, m: Batch, r: Renaming, refs: seq<string>, i: nat, similarity: Similarity)
    requires Narrated(b, m, r) && Known(b, refs) && Known(m, refs) && i < |refs|
    ensures var f, f' := Cases(b, refs)[i], Cases(m, refs)[i];
      && f' == RenameFacts(r, f) && f.gateway != [] && f'.gateway != []
      && WithoutNarration(SettlementProposal(m.runId, m.policy, f', similarity))
         == WithoutNarration(SettlementProposal(b.runId, b.policy, f, similarity))
      && (AllHold(b.policy, f') <==> AllHold(b.policy, f))
  {
    assert m.policy == b.policy && Ordered(b.events) && Monotone(r, IdSet(b.events));
    CaseAt(b, refs, i);
    hide Cases, Known, Monotone, ClaimedBank, FactsOf, GatewaySettlement, RenameFacts, WithoutNarration, AllHold,
         SettlementProposal, DrawnFrom, Mirrors;
    CaseAfter(b, m, r, [], refs, i);
    var consumed := ClaimedBank(Cases(b, refs)[..i]);
    SameSettlement(b, r, refs[i], consumed, similarity);
    CaseIsDrawnFrom(b, r, refs[i], consumed);
    SameConditions(r, b.policy, FactsOf(b, refs[i], consumed), b.events);
  }

  lemma {:induction false} SameOrphan(r: Renaming, runId: string, policy: Policy, rows: seq<Event>, reason: Reason, key: string)
    requires rows != [] && OnlyNarrates(r, r.runId)
    ensures RenameAll(r, rows) != []
    ensures OrphanProposal(runId, policy, RenameAll(r, rows), reason, key) == OrphanProposal(runId, policy, rows, reason, key)
  {
    SameLinks(r, rows, Unconsumed);
    LargestOfRenamed(r, rows);
    RenameAllAt(r, rows, 0);
    assert RenameAll(r, rows)[0].recordId == rows[0].recordId;
    hide RenameAll, EvidenceFor, Ids, LargestAmount;
  }

  lemma {:induction false} SameOrphanProposals(b: Batch, m: Batch, r: Renaming, cases: seq<Facts>, cases': seq<Facts>)
    requires OnlyNarrates(r, r.runId) && SameOrphans(b, m, r, cases, cases') && m.policy == b.policy && m.runId == b.runId
    requires Presentable(b, cases) && Presentable(m, cases')
    ensures BankOrphanProposals(m, OrphanBank(m, cases')) == BankOrphanProposals(b, OrphanBank(b, cases))
    ensures ErpOrphanProposals(m, OrphanErp(m, cases')) == ErpOrphanProposals(b, OrphanErp(b, cases))
  {
    var bank, erp := OrphanBank(b, cases), OrphanErp(b, cases);
    hide OrphanBank, OrphanErp, OrphanProposal, RenameAll, Grounded, OnlyNarrates;
    forall k | 0 <= k < |bank|
      ensures BankOrphanProposals(m, OrphanBank(m, cases'))[k] == BankOrphanProposals(b, bank)[k]
    {
      RenameAllAt(r, bank, k);
      RenamedSingleton(r, bank[k]);
      SameOrphan(r, b.runId, b.policy, [bank[k]], OrphanBankCredit, "");
    }
    forall k | 0 <= k < |erp|
      ensures ErpOrphanProposals(m, OrphanErp(m, cases'))[k] == ErpOrphanProposals(b, erp)[k]
    {
      RenameGroupsAt(r, erp, k);
      RenameAllAt(r, erp[k], 0);
      SameOrphan(r, b.runId, b.policy, erp[k], OrphanErpPosting, JournalId(erp[k][0].recordId));
    }
  }

  /** Proposal by proposal, equal but for the narration score. */
  ghost predicate AlikeProposals(ps: seq<Proposal>, qs: seq<Proposal>) {
    |qs| == |ps| && forall k | 0 <= k < |ps| :: WithoutNarration(qs[k]) == WithoutNarration(ps[k])
  }

  ghost predicate Alike(k: KernelResult, l: KernelResult) {
    && AlikeProposals(k.proposals, l.proposals) && |l.decisions| == |k.decisions|
    && (forall i | 0 <= i < |k.decisions| :: WithoutNarrationCheck(l.decisions[i]) == WithoutNarrationCheck(k.decisions[i]))
    && l.exceptions == k.exceptions
  }

  lemma {:induction false} AlikeAfterTheGate(b: Batch, m: Batch, ps: seq<Proposal>, qs: seq<Proposal>)
    requires AlikeProposals(ps, qs) && m.policy == b.policy && m.runId == b.runId
    requires Support(NarrationFeature) !in b.policy.required
    ensures Exceptions(m, qs) == Exceptions(b, ps)
    ensures forall i | 0 <= i < |ps| :: WithoutNarrationCheck(Decisions(m, qs)[i]) == WithoutNarrationCheck(Decisions(b, ps)[i])
  {
    hide WithoutNarration, WithoutNarrationCheck, Decide, CreateException;
    forall i | 0 <= i < |ps|
      ensures WithoutNarrationCheck(Decisions(m, qs)[i]) == WithoutNarrationCheck(Decisions(b, ps)[i])
    {
      GateIgnoresNarration(b.runId, b.policy, ps[i], qs[i]);
    }
    if ps != [] {
      var n := |ps| - 1;
      AlikeAfterTheGate(b, m, ps[..n], qs[..n]);
      GateIgnoresNarration(b.runId, b.policy, ps[n], qs[n]);
    }
  }

  lemma {:induction false} NarratedProposals(b: Batch, m: Batch, r: Renaming, refs: seq<string>, similarity: Similarity)
    requires Narrated(b, m, r) && refs == SettlementReferences(b) && Known(b, refs)
    ensures SettlementReferences(m) == refs && Known(m, refs)
    ensures Presentable(b, Cases(b, refs)) && Presentable(m, Cases(m, refs))
    ensures AlikeProposals(ProposalsFrom(b, Cases(b, refs), similarity), ProposalsFrom(m, Cases(m, refs), similarity))
  {
    MirroredReferences(b, m, r, []);
    MirroredCases(b, m, r, [], refs);
    CasesArePresentable(b, refs);
    CasesArePresentable(m, refs);
    var cases, cases' := Cases(b, refs), Cases(m, refs);
    assert m.policy == b.policy;
    hide Cases, Known, Mirrors, OrphanBank, OrphanErp, CaseProposals, SettlementProposal, RenameAll, RenameGroups, WithoutNarration,
         SettlementReferences, OrphanProposal, RenameFacts, AllHold;
    MirroredOrphanBank(b, m, r, [], refs);
    MirroredOrphanErp(b, m, r, [], refs);
    SameOrphanProposals(b, m, r, cases, cases');
    var ps, qs := ProposalsFrom(b, cases, similarity), ProposalsFrom(m, cases', similarity);
    forall k: nat | k < |ps| ensures WithoutNarration(qs[k]) == WithoutNarration(ps[k]) {
      if k < |refs| {
        NarratedCase(b, m, r, refs, k, similarity);
        CaseProposalAt(b, cases, similarity, k);
        CaseProposalAt(m, cases', similarity, k);
      } else {
        assert qs[k] == ps[k];
      }
    }
  }

  /** Both runs raise, or both give alike results. */
  ghost predicate SameOutcome(b: Batch, m: Batch, similarity: Similarity)
    requires WellFormed(b) && WellFormed(m)
  {
    && (Outcome(m, similarity).Ok? <==> Outcome(b, similarity).Ok?)
    && (Outcome(b, similarity).Ok? ==> Alike(Outcome(b, similarity).value, Outcome(m, similarity).value))
  }

  lemma {:induction false} AlikeKernels(b: Batch, m: Batch, ps: seq<Proposal>, qs: seq<Proposal>)
    requires AlikeProposals(ps, qs) && m.policy == b.policy && m.runId == b.runId
    requires Support(NarrationFeature) !in b.policy.required
    ensures Alike(KernelResult(ps, Decisions(b, ps), Exceptions(b, ps)), KernelResult(qs, Decisions(m, qs), Exceptions(m, qs)))
  {
    AlikeAfterTheGate(b, m, ps, qs);
    hide WithoutNarration, WithoutNarrationCheck, Exceptions, Decide;
  }

  lemma {:induction false} NarratedKernel(b: Batch, m: Batch, r: Renaming, similarity: Similarity)
    requires Narrated(b, m, r) && b.policy.Valid() && Support(NarrationFeature) !in b.policy.required
    requires Known(b, SettlementReferences(b))
    ensures WellFormed(b) && WellFormed(m) && Known(m, SettlementReferences(m))
    ensures Presentable(b, AllCases(b)) && Presentable(m, AllCases(m))
    ensures Alike(Kernel(b, similarity), Kernel(m, similarity))
    ensures Accepted(Kernel(m, similarity)) <==> Accepted(Kernel(b, similarity))
  {
    var refs := SettlementReferences(b);
    assert WellFormed(b) && WellFormed(m) && m.policy == b.policy && m.runId == b.runId;
    NarratedProposals(b, m, r, refs, similarity);
    hide Narrated, Cases, Known, SettlementReferences, ProposalsFrom, Accepted, NeverUnderProved, AlikeProposals, WellFormed,
         Alike, Decisions, Exceptions, WithoutNarration, OrphanErp;
    AlikeKernels(b, m, ProposalsFrom(b, Cases(b, refs), similarity), ProposalsFrom(m, Cases(m, refs), similarity));
    SameUnderProof(b, m, r, refs, similarity);
    RaisesWhenUnderProved(b, similarity);
    RaisesWhenUnderProved(m, similarity);
  }

  lemma {:induction false} NarratedRun(b: Batch, m: Batch, r: Renaming, similarity: Similarity)
    requires Narrated(b, m, r) && b.policy.Valid() && Support(NarrationFeature) !in b.policy.required
    ensures WellFormed(b) && WellFormed(m) && SameOutcome(b, m, similarity)
  {
    assert WellFormed(b) && WellFormed(m);
    hide Narrated, Known, SettlementReferences, Accepted, Presentable, WellFormed, Alike, Kernel, Cases, Outcome, SameOutcome;
    OutcomeOf(b, similarity);
    OutcomeOf(m, similarity);
    NarratedKernel(b, m, r, similarity);
    AlikeOutcomes(b, m, similarity, Kernel(b, similarity), Kernel(m, similarity), Accepted(Kernel(b, similarity)));
  }

  lemma AlikeOutcomes(b: Batch, m: Batch, similarity: Similarity, k: KernelResult, l: KernelResult, accepted: bool)
    requires WellFormed(b) && WellFormed(m) && Alike(k, l)
    requires Outcome(b, similarity) == (if accepted then Ok(k) else Err(Raised))
    requires Outcome(m, similarity) == (if accepted then Ok(l) else Err(Raised))
    ensures SameOutcome(b, m, similarity)
  {
    hide WellFormed, Outcome, Alike;
  }

  lemma OutcomeOf(b: Batch, similarity: Similarity)
    requires WellFormed(b)
    ensures Known(b, SettlementReferences(b)) && Presentable(b, AllCases(b))
    ensures Outcome(b, similarity) == if Accepted(Kernel(b, similarity)) then Ok(Kernel(b, similarity)) else Err(Raised)
  {
    ReferencesAreKnown(b);
    CasesArePresentable(b, SettlementReferences(b));
    hide WellFormed, Known, SettlementReferences, Accepted, Presentable, Kernel, Cases;
  }

  lemma {:induction false} SameUnderProof(b: Batch, m: Batch, r: Renaming, refs: seq<string>, similarity: Similarity)
    requires Narrated(b, m, r) && Known(b, refs) && Known(m, refs) && Support(NarrationFeature) !in b.policy.required
    requires Grounded(Cases(b, refs)) && Grounded(Cases(m, refs))
    ensures NeverUnderProved(m, Cases(m, refs), similarity) <==> NeverUnderProved(b, Cases(b, refs), similarity)
  {
    hide Cases, Known, Mirrors, SettlementProposal, WithoutNarration, AllHold, Decide, CreateException, RenameFacts;
    assert m.policy == b.policy by { SamePolicies(b, m, r); }
    forall i: nat | i < |refs|
      ensures CaseLevel(m.runId, m.policy, Cases(m, refs)[i], similarity) == CaseLevel(b.runId, b.policy, Cases(b, refs)[i], similarity)
      ensures AllHold(m.policy, Cases(m, refs)[i]) <==> AllHold(b.policy, Cases(b, refs)[i])
    {
      NarratedCase(b, m, r, refs, i, similarity);
      SameLevels(b.runId, b.policy, Cases(b, refs)[i], Cases(m, refs)[i], similarity);
    }
    hide CaseLevel;
  }

  lemma SamePolicies(b: Batch, m: Batch, r: Renaming)
    requires Narrated(b, m, r)
    ensures m.policy == b.policy
  {
  }

  lemma SameLevels(runId: string, p: Policy, f: Facts, f': Facts, similarity: Similarity)
    requires f.gateway != [] && f'.gateway != [] && Support(NarrationFeature) !in p.required
    requires WithoutNarration(SettlementProposal(runId, p, f', similarity)) == WithoutNarration(SettlementProposal(runId, p, f, similarity))
    ensures CaseLevel(runId, p, f', similarity) == CaseLevel(runId, p, f, similarity)
  {
    var q, q' := SettlementProposal(runId, p, f, similarity), SettlementProposal(runId, p, f', similarity);
    hide SettlementProposal;
    GateIgnoresNarration(runId, p, q, q');
    assert WithoutNarrationCheck(Decide(runId, q, p)).level == Level(q, p.required);
    assert WithoutNarrationCheck(Decide(runId, q', p)).level == Level(q', p.required);
  }

  // ---- from the stored rows -----------------------------------------------------------------

  ghost predicate DifferOnlyInNarration(s: seq<Event>, t: seq<Event>) {
    |t| == |s| && forall i | 0 <= i < |s| :: t[i] == s[i].(narration := t[i].narration)
  }

  function Narrations(s: seq<Event>, t: seq<Event>): map<string, string>
    requires |s| == |t|
  {
    if s == [] then map[] else Narrations(s[1..], t[1..])[s[0].eventId := t[0].narration]
  }

  lemma {:induction false} NarrationsAt(s: seq<Event>, t: seq<Event>, i: nat)
    requires |s| == |t| && i < |s| && UniqueIds(s)
    ensures s[i].eventId in Narrations(s, t) && Narrations(s, t)[s[i].eventId] == t[i].narration
  {
    if i > 0 {
      assert forall j, k | 0 <= j < k < |s[1..]| :: s[1..][j].eventId != s[1..][k].eventId;
      NarrationsAt(s[1..], t[1..], i - 1);
      assert s[0].eventId != s[i].eventId;
    }
  }

  lemma {:induction false} NarratedRows(s: seq<Event>, t: seq<Event>, runId: string)
    requires DifferOnlyInNarration(s, t) && UniqueIds(s) && forall e | e in s :: e.runId == runId
    ensures RenameAll(Renaming(map[], runId, Narrations(s, t), map[]), s) == t
  {
    var r := Renaming(map[], runId, Narrations(s, t), map[]);
    forall i | 0 <= i < |s| ensures RenameAll(r, s)[i] == t[i] {
      RenameAllAt(r, s, i);
      NarrationsAt(s, t, i);
      assert s[i] in s;
    }
  }

  function RunIds(s: seq<Event>): set<string> { set e | e in s :: e.runId }

  function Entities(s: seq<Event>): set<string> { set e | e in s :: e.entity }

  function Currencies(s: seq<Event>): set<string> { set e | e in s :: e.currency }

  lemma {:induction false} SameScopes(s: seq<Event>, t: seq<Event>)
    requires DifferOnlyInNarration(s, t)
    ensures RunIds(t) == RunIds(s) && Entities(t) == Entities(s) && Currencies(t) == Currencies(s)
  {
    forall x ensures (x in RunIds(t) <==> x in RunIds(s)) && (x in Entities(t) <==> x in Entities(s))
                     && (x in Currencies(t) <==> x in Currencies(s)) {
      ScopesAt(s, t, x);
      ScopesAt(t, s, x);
    }
  }

  lemma {:induction false} ScopesAt(s: seq<Event>, t: seq<Event>, x: string)
    requires |t| == |s| && forall i | 0 <= i < |s| ::
      s[i].runId == t[i].runId && s[i].entity == t[i].entity && s[i].currency == t[i].currency
    ensures (x in RunIds(s) ==> x in RunIds(t)) && (x in Entities(s) ==> x in Entities(t))
    ensures x in Currencies(s) ==> x in Currencies(t)
  {
    forall e | e in s ensures e.runId in RunIds(t) && e.entity in Entities(t) && e.currency in Currencies(t) {
      var i :| 0 <= i < |s| && s[i] == e;
      assert t[i] in t;
    }
  }

  lemma {:induction false} SameRefusals(s: seq<Event>, t: seq<Event>, policy: Policy)
    requires DifferOnlyInNarration(s, t)
    ensures BatchOf(t, policy).Ok? <==> BatchOf(s, policy).Ok?
    ensures BatchOf(s, policy).Err? ==> BatchOf(t, policy) == BatchOf(s, policy)
    ensures BatchOf(s, policy).Ok? ==> BatchOf(t, policy) == Ok(BatchOf(s, policy).value.(events := ById(t)))
  {
    SameScopes(s, t);
    assert RunIds(s) == (set e | e in s :: e.runId) && RunIds(t) == (set e | e in t :: e.runId);
    assert Entities(s) == (set e | e in s :: e.entity) && Entities(t) == (set e | e in t :: e.entity);
    assert Currencies(s) == (set e | e in s :: e.currency) && Currencies(t) == (set e | e in t :: e.currency);
    hide ById, RunIds, Entities, Currencies;
  }

  lemma {:induction false} NarratedBatches(s: seq<Event>, t: seq<Event>, policy: Policy)
    requires DifferOnlyInNarration(s, t) && UniqueIds(s) && BatchOf(s, policy).Ok?
    ensures BatchOf(t, policy).Ok?
    ensures var b := BatchOf(s, policy).value;
      Narrated(b, BatchOf(t, policy).value, Renaming(map[], b.runId, Narrations(s, t), map[]))
  {
    var b := BatchOf(s, policy).value;
    var r := Renaming(map[], b.runId, Narrations(s, t), map[]);
    AcceptedBatchIsWellFormed(s, policy);
    SameRefusals(s, t, policy);
    assert UniqueIds(t);
    AcceptedBatchIsWellFormed(t, policy);
    NarratedRows(s, t, b.runId);
    ByIdMembers(s);
    assert b.events == ById(s) && RenameAll(r, s) + [] == t;
    assert Monotone(r, IdSet(b.events));
    var m := BatchOf(t, policy).value;
    assert m.events == ById(t) && m.scope == b.scope && m.policy == b.policy && m.runId == b.runId;
    hide BatchOf, UniqueIds, ById, Narrations, DifferOnlyInNarration, WellFormed, RenameAll, Rename, Monotone, IdSet;
    SameMembersMirror(b, m, s, r, []);
  }

  /** Narration cannot influence proof: unless the policy requires the narration check itself, two
      batches that differ only in narration are refused alike, or give the same members, links, checks,
      reasons, proof levels, states and exceptions; only the narration check and the score may differ. */
  lemma {:induction false} NarrationCannotInfluenceProof(s: seq<Event>, t: seq<Event>, policy: Policy, similarity: Similarity)
    requires DifferOnlyInNarration(s, t) && UniqueIds(s) && policy.Valid()
    requires Support(NarrationFeature) !in policy.required
    ensures BatchOf(s, policy).Err? ==> BatchOf(t, policy) == BatchOf(s, policy)
    ensures BatchOf(s, policy).Ok? ==>
      && BatchOf(t, policy).Ok?
      && WellFormed(BatchOf(s, policy).value) && WellFormed(BatchOf(t, policy).value)
      && SameOutcome(BatchOf(s, policy).value, BatchOf(t, policy).value, similarity)
  {
    SameRefusals(s, t, policy);
    if BatchOf(s, policy).Ok? {
      var b := BatchOf(s, policy).value;
      assert b.policy == policy;
      NarratedBatches(s, t, policy);
      hide BatchOf, UniqueIds, DifferOnlyInNarration, Narrated, SameOutcome, WellFormed;
      NarratedRun(b, BatchOf(t, policy).value, Renaming(map[], b.runId, Narrations(s, t), map[]), similarity);
    }
  }

  // ---- when narration is required -----------------------------------------------------------

  /** The narration support of the chosen bank rows has its full weight. */
  predicate NarrationIsPerfect(p: Policy, f: Facts, similarity: Similarity) {
    NarrationScore(p, f.reference, Pick(f).rows, similarity) == p.weights.narration
  }

  /** The policy with the narration check taken off its required checks. */
  function Relaxed(p: Policy): Policy {
    p.(required := p.required - {Support(NarrationFeature)})
  }

  lemma {:induction false} SignsStay(p: Policy, s: seq<Event>)
    ensures SignedTotal(Relaxed(p), s) == SignedTotal(p, s)
  {
    if s != [] {
      SignsStay(p, s[1..]);
      assert Relaxed(p).Sign(s[0].kind, s[0].direction) == p.Sign(s[0].kind, s[0].direction);
    }
  }

  lemma {:induction false} ConditionsStay(p: Policy, f: Facts)
    requires f.gateway != []
    ensures ExpectedNet(Relaxed(p), f) == ExpectedNet(p, f) && ClearingExpected(Relaxed(p), f) == ClearingExpected(p, f)
  {
    SignsStay(p, Select(f.gateway, NotOfKind(EventType.Settlement)));
    SignsStay(p, Select(f.gateway, OfKind({Payment, Refund, Adjustment})));
    hide Select, SignedTotal;
  }

  /** What is checked and reasoned does not depend on what is required. */
  lemma {:induction false} ChecksStay(p: Policy, f: Facts)
    requires f.gateway != []
    ensures ProofChecks(Relaxed(p), f) == ProofChecks(p, f)
  {
    ConditionsStay(p, f);
    hide Select, SignedTotal, ExpectedNet, ClearingExpected, Pick, Net, Anchor, ExpectedUtr, Total, SideTotal, Posted, KindTotal,
         CitedBank, CitedErp, GatewayLinks, Offsets, Balanced, SettlementRows, Journal;
    assert GatewayChecks(Relaxed(p), f) == GatewayChecks(p, f);
    assert ReceiptChecks(Relaxed(p), f) == ReceiptChecks(p, f);
    assert IdentityChecks(Relaxed(p), f) == IdentityChecks(p, f);
    assert RoleTargets(Relaxed(p), f) == RoleTargets(p, f);
    hide RoleTargets;
    assert RoleChecks(Relaxed(p), f) == RoleChecks(p, f);
  }

  lemma {:induction false} RolesStay(p: Policy, f: Facts)
    requires f.gateway != []
    ensures RolesAgree(Relaxed(p), f) <==> RolesAgree(p, f)
  {
    hide Select, Net, KindTotal, Posted, Journal, ClearingExpected;
    ConditionsStay(p, f);
    assert RoleTargets(Relaxed(p), f) == RoleTargets(p, f);
    hide RoleTargets;
    forall i: nat | i < 4 ensures TargetMet(Relaxed(p), f, i) <==> TargetMet(p, f, i) {
    }
    hide TargetMet;
  }

  lemma {:induction false} ReasonsStay(p: Policy, f: Facts)
    requires f.gateway != []
    ensures Reasons(Relaxed(p), f) == Reasons(p, f)
  {
    hide Select, SignedTotal, ExpectedNet, ClearingExpected, Pick, Net, Anchor, ExpectedUtr, Total, SideTotal, Posted, KindTotal,
         Balanced, SettlementRows, Journal, WithoutRepeats, IdentifierConflict, IsAmbiguous, IsInvalid, RolesAgree, UtrAgrees, BankPresent;
    ConditionsStay(p, f);
    RolesStay(p, f);
    assert GatewayReasons(Relaxed(p), f) == GatewayReasons(p, f);
    assert BankReasons(Relaxed(p), f) == BankReasons(p, f);
    assert ErpReasons(Relaxed(p), f) == ErpReasons(p, f);
  }

  lemma {:induction false} SilentOnProof(p: Policy, features: seq<SupportFeature>, cited: seq<Link>, code: CheckCode)
    requires !code.Support?
    ensures Verdict(SupportChecks(p, features, cited), code) == None
  {
    var checks := SupportChecks(p, features, cited);
    hide Verdict, WeightOf;
    NoSuchCheck(checks, code);
  }

  lemma {:induction false} NoSupportInProof(p: Policy, f: Facts, feature: Feature)
    requires f.gateway != []
    ensures Verdict(ProofChecks(p, f), Support(feature)) == None
  {
    NoSupportCodes();
    hide ProofChecks, CODES, Verdict;
    CodesLineUp(p, f);
    NoSuchCheck(ProofChecks(p, f), Support(feature));
  }

  /** Taking the narration check off the policy changes the verdict on no other required check. */
  lemma {:induction false} OtherVerdictsStay(runId: string, p: Policy, f: Facts, similarity: Similarity, code: CheckCode)
    requires f.gateway != [] && Support(NarrationFeature) in p.required && code in Relaxed(p).required
    ensures Verdict(SettlementProposal(runId, p, f, similarity).checks, code)
         == Verdict(SettlementProposal(runId, Relaxed(p), f, similarity).checks, code)
  {
    var p' := Relaxed(p);
    var proof, cited := ProofChecks(p, f), CitedBank(f);
    var features, features' := Features(p, f, similarity), Features(p', f, similarity);
    ChecksStay(p, f);
    assert SettlementProposal(runId, p, f, similarity).checks == proof + SupportChecks(p, features, cited);
    assert SettlementProposal(runId, p', f, similarity).checks == proof + SupportChecks(p', features', cited);
    hide SettlementProposal, ProofChecks, CitedBank, Verdict, SupportChecks, HardUnique;
    if code.Support? {
      NoSupportInProof(p', f, code.feature);
      assert !FullyProved(p', f);
      NeverFullyProved(p, f);
      hide FullyProved;
      SameScores(p, f, similarity);
      SameSupportChecks(p, features, cited);
    } else {
      hide Features;
      VerdictConcat(proof, SupportChecks(p, features, cited), code);
      VerdictConcat(proof, SupportChecks(p', features', cited), code);
      SilentOnProof(p, features, cited, code);
      SilentOnProof(p', features', cited, code);
    }
  }

  lemma SameNarrationScore(p: Policy, reference: string, rows: seq<Event>, similarity: Similarity)
    ensures NarrationScore(Relaxed(p), reference, rows, similarity) == NarrationScore(p, reference, rows, similarity)
  {
    var text := JoinNarrations(rows);
    assert Relaxed(p).weights.narration as real * similarity(reference, text) == p.weights.narration as real * similarity(reference, text);
  }

  lemma {:induction false} SameScores(p: Policy, f: Facts, similarity: Similarity)
    requires f.gateway != [] && !FullyProved(p, f) && !FullyProved(Relaxed(p), f)
    ensures Features(Relaxed(p), f, similarity) == Features(p, f, similarity)
  {
    var rows, day := Pick(f).rows, Anchor(f.gateway).day;
    SameNarrationScore(p, f.reference, rows, similarity);
    hide FullyProved, Pick, Net, ExpectedUtr, Anchor, Total, NarrationScore;
    assert WithinWindow(Relaxed(p), rows, day) <==> WithinWindow(p, rows, day);
    hide WithinWindow;
  }

  lemma {:induction false} SameSupportChecks(p: Policy, features: seq<SupportFeature>, cited: seq<Link>)
    ensures SupportChecks(Relaxed(p), features, cited) == SupportChecks(p, features, cited)
  {
  }

  /** The exact boundary: a policy that requires the narration check proves a settlement if and only if the
      policy without that check proves it and its narration scores in full. */
  lemma {:induction false} RequiredNarrationDecides(runId: string, p: Policy, f: Facts, similarity: Similarity)
    requires f.gateway != [] && Support(NarrationFeature) in p.required
    ensures CaseLevel(runId, p, f, similarity) == Proved
      <==> CaseLevel(runId, Relaxed(p), f, similarity) == Proved && NarrationIsPerfect(p, f, similarity)
  {
    hide SettlementProposal, Reasons, Verdict, NarrationIsPerfect, Level, Relaxed, HardUnique, BankPresent, IsAmbiguous, IsInvalid;
    var q, q' := SettlementProposal(runId, p, f, similarity), SettlementProposal(runId, Relaxed(p), f, similarity);
    FlagsOf(runId, p, f, similarity);
    FlagsOf(runId, Relaxed(p), f, similarity);
    ReasonsStay(p, f);
    NarrationVerdict(runId, p, f, similarity);
    UniqueIsPresent(f);
    RelaxedRequires(p);
    forall code | code in Relaxed(p).required ensures Verdict(q.checks, code) == Verdict(q'.checks, code) {
      OtherVerdictsStay(runId, p, f, similarity, code);
    }
    LevelsCompare(p.required, Relaxed(p).required, q, q');
    ProvedIsUnique(q', Relaxed(p).required);
  }

  /** Without the narration check, the gate reads the same proposal. */
  lemma {:induction false} RelaxedLevel(runId: string, p: Policy, f: Facts, similarity: Similarity)
    requires f.gateway != [] && Support(NarrationFeature) in p.required
    ensures CaseLevel(runId, Relaxed(p), f, similarity) == Level(SettlementProposal(runId, p, f, similarity), Relaxed(p).required)
  {
    hide SettlementProposal, Reasons, Verdict, Relaxed, HardUnique, IsAmbiguous, IsInvalid, FirstAmong;
    var q, q' := SettlementProposal(runId, p, f, similarity), SettlementProposal(runId, Relaxed(p), f, similarity);
    FlagsOf(runId, p, f, similarity);
    FlagsOf(runId, Relaxed(p), f, similarity);
    ReasonsStay(p, f);
    forall code | code in Relaxed(p).required ensures Verdict(q.checks, code) == Verdict(q'.checks, code) {
      OtherVerdictsStay(runId, p, f, similarity, code);
    }
    assert RequiredPass(Relaxed(p).required, q.checks) <==> RequiredPass(Relaxed(p).required, q'.checks);
  }

  lemma {:induction false} SameRelaxedLevels(runId: string, p: Policy, f: Facts, f': Facts, similarity: Similarity)
    requires f.gateway != [] && f'.gateway != [] && Support(NarrationFeature) in p.required
    requires WithoutNarration(SettlementProposal(runId, p, f', similarity)) == WithoutNarration(SettlementProposal(runId, p, f, similarity))
    ensures CaseLevel(runId, Relaxed(p), f', similarity) == CaseLevel(runId, Relaxed(p), f, similarity)
  {
    var q, q' := SettlementProposal(runId, p, f, similarity), SettlementProposal(runId, p, f', similarity);
    hide SettlementProposal, CaseLevel, Level;
    RelaxedLevel(runId, p, f, similarity);
    RelaxedLevel(runId, p, f', similarity);
    GateIgnoresNarration(runId, Relaxed(p), q, q');
    assert WithoutNarrationCheck(Decide(runId, q, Relaxed(p))).level == Level(q, Relaxed(p).required);
    assert WithoutNarrationCheck(Decide(runId, q', Relaxed(p))).level == Level(q', Relaxed(p).required);
  }

  lemma {:induction false} NarratedReferences(b: Batch, m: Batch, r: Renaming)
    requires Narrated(b, m, r)
    ensures m.policy == b.policy && SettlementReferences(m) == SettlementReferences(b)
    ensures Known(b, SettlementReferences(b)) && Known(m, SettlementReferences(b))
  {
    assert WellFormed(b) && m.policy == b.policy;
    hide Mirrors, WellFormed, SettlementReferences, Known, Cases;
    ReferencesAreKnown(b);
    MirroredReferences(b, m, r, []);
    MirroredCases(b, m, r, [], SettlementReferences(b));
  }

  /** So of two batches that differ only in narration, a policy that requires the narration check tells a settlement
      apart exactly when the rest of the policy proves it and one narration scores in full and the other does not. */
  lemma {:induction false} RequiredNarrationTellsApart(s: seq<Event>, t: seq<Event>, policy: Policy, similarity: Similarity, i: nat)
    requires DifferOnlyInNarration(s, t) && UniqueIds(s) && policy.Valid() && Support(NarrationFeature) in policy.required
    requires BatchOf(s, policy).Ok? && i < |SettlementReferences(BatchOf(s, policy).value)|
    ensures BatchOf(t, policy).Ok?
    ensures var b, m := BatchOf(s, policy).value, BatchOf(t, policy).value;
      var refs := SettlementReferences(b);
      && SettlementReferences(m) == refs && Known(b, refs) && Known(m, refs)
      && var f, f' := Cases(b, refs)[i], Cases(m, refs)[i];
      && f.gateway != [] && f'.gateway != []
      && ((CaseLevel(b.runId, policy, f, similarity) == Proved) != (CaseLevel(m.runId, policy, f', similarity) == Proved)
          <==> CaseLevel(b.runId, Relaxed(policy), f, similarity) == Proved
               && NarrationIsPerfect(policy, f, similarity) != NarrationIsPerfect(policy, f', similarity))
  {
    var b := BatchOf(s, policy).value;
    assert b.policy == policy;
    NarratedBatches(s, t, policy);
    var m := BatchOf(t, policy).value;
    var r := Renaming(map[], b.runId, Narrations(s, t), map[]);
    assert m.runId == b.runId;
    hide BatchOf, UniqueIds, DifferOnlyInNarration, WellFormed, CaseLevel, NarrationIsPerfect, Relaxed, SettlementProposal, WithoutNarration,
         Cases, Known, SettlementReferences, AllHold, RenameFacts, Mirrors;
    var refs := SettlementReferences(b);
    NarratedReferences(b, m, r);
    NarratedCase(b, m, r, refs, i, similarity);
    SameRelaxedLevels(b.runId, policy, Cases(b, refs)[i], Cases(m, refs)[i], similarity);
    RequiredNarrationDecides(b.runId, policy, Cases(b, refs)[i], similarity);
    RequiredNarrationDecides(m.runId, policy, Cases(m, refs)[i], similarity);
  }

  lemma RelaxedRequires(p: Policy)
    ensures Relaxed(p).required == p.required - {Support(NarrationFeature)}
  {
  }

  lemma UniqueIsPresent(f: Facts)
    ensures HardUnique(f) ==> BankPresent(f)
  {
    hide Pick, SettlementRows;
  }

  lemma ProvedIsUnique(q: Proposal, required: set<CheckCode>)
    ensures Level(q, required) == Proved ==> q.unique
  {
    hide RequiredPass, FirstAmong;
  }

  lemma LevelsCompare(required: set<CheckCode>, fewer: set<CheckCode>, q: Proposal, q': Proposal)
    requires Support(NarrationFeature) in required && fewer == required - {Support(NarrationFeature)}
    requires q.reasons == q'.reasons && q.unique == q'.unique && q.ambiguous == q'.ambiguous && q.invalid == q'.invalid
    requires forall code | code in fewer :: Verdict(q.checks, code) == Verdict(q'.checks, code)
    ensures Level(q, required) == Proved
      <==> Level(q', fewer) == Proved && Verdict(q.checks, Support(NarrationFeature)) == Some(true)
  {
    hide Verdict, FirstAmong;
    assert RequiredPass(required, q.checks)
      <==> RequiredPass(fewer, q'.checks) && Verdict(q.checks, Support(NarrationFeature)) == Some(true);
    hide RequiredPass;
  }

  /** On top of the fifteen: proved exactly when all fifteen conditions hold and the narration scores in full. */
  lemma {:induction false} FifteenAndNarration(runId: string, p: Policy, f: Facts, similarity: Similarity)
    requires f.gateway != [] && p.required == FIFTEEN + {Support(NarrationFeature)} && p.bankTolerance == 0
    requires forall g | g in f.journals :: g != []
    ensures CaseLevel(runId, p, f, similarity) == Proved <==> AllHold(p, f) && NarrationIsPerfect(p, f, similarity)
  {
    var q := SettlementProposal(runId, p, f, similarity);
    assert q.reasons == Reasons(p, f) && q.unique == HardUnique(f) && q.ambiguous == IsAmbiguous(f) && q.invalid == IsInvalid(f);
    RequiredPassMeansAllHold(runId, p, f, similarity);
    NarrationVerdict(runId, p, f, similarity);
    ExplanationsAreComplete(p, f);
    FirstAmongFinds(Reasons(p, f), HARD_CONTRADICTIONS);
    assert AllHold(p, f) ==> HardUnique(f) && !IsAmbiguous(f) && !IsInvalid(f) && BankPresent(f) by {
      hide Pick, SettlementRows, Balanced, ComponentsAgree, BankAmountAgrees, AllCredits, UtrAgrees, DatesFit, RolesAgree;
    }
    assert AllHold(p, f) ==> Reasons(p, f) == [];
    hide SettlementProposal, Reasons, AllHold, HardUnique, IsAmbiguous, IsInvalid, FirstAmong, Verdict, NarrationIsPerfect, AllButDirection,
         BankPresent, FIFTEEN;
    SplitRequired(q.checks);
  }

  lemma SplitRequired(checks: seq<Check>)
    ensures RequiredPass(FIFTEEN + {Support(NarrationFeature)}, checks)
      <==> RequiredPass(FIFTEEN, checks) && Verdict(checks, Support(NarrationFeature)) == Some(true)
  {
    hide Verdict;
  }

  lemma {:induction false} NarrationVerdict(runId: string, p: Policy, f: Facts, similarity: Similarity)
    requires f.gateway != [] && Support(NarrationFeature) in p.required
    ensures Verdict(SettlementProposal(runId, p, f, similarity).checks, Support(NarrationFeature))
         == if BankPresent(f) then Some(NarrationIsPerfect(p, f, similarity)) else None
  {
    var proof, features := ProofChecks(p, f), Features(p, f, similarity);
    NeverMentioned(p, f);
    assert SettlementProposal(runId, p, f, similarity).checks == proof + SupportChecks(p, features, CitedBank(f));
    hide SettlementProposal;
    NeverFullyProved(p, f);
    ScoredUnlessProved(p, f, similarity);
    hide Features, ScoreBankGroup, ProofChecks, CitedBank, Pick, Net, ExpectedUtr, Anchor, FullyProved, Verdict, SupportChecks;
    VerdictConcat(proof, SupportChecks(p, features, CitedBank(f)), Support(NarrationFeature));
    NarrationSupport(p, Pick(f).rows, Net(f.gateway), f.reference, ExpectedUtr(f.gateway), Anchor(f.gateway).day, similarity,
                     CitedBank(f));
  }

  lemma ScoredUnlessProved(p: Policy, f: Facts, similarity: Similarity)
    requires f.gateway != [] && !FullyProved(p, f)
    ensures Features(p, f, similarity)
         == ScoreBankGroup(p, Pick(f).rows, Net(f.gateway), f.reference, ExpectedUtr(f.gateway), Anchor(f.gateway).day, similarity)
  {
    hide FullyProved, ScoreBankGroup, Pick, Net, ExpectedUtr, Anchor;
  }

  lemma {:induction false} NeverFullyProved(p: Policy, f: Facts)
    requires f.gateway != [] && Support(NarrationFeature) in p.required
    ensures !FullyProved(p, f)
  {
    NeverMentioned(p, f);
    hide ProofChecks, Verdict, HardUnique;
  }

  lemma {:induction false} NarrationSupport(p: Policy, rows: seq<Event>, expected: int, reference: string, utr: string, day: int,
                                            similarity: Similarity, cited: seq<Link>)
    ensures Verdict(SupportChecks(p, ScoreBankGroup(p, rows, expected, reference, utr, day, similarity), cited), Support(NarrationFeature))
         == if rows == [] then None
            else Some(NarrationScore(p, reference, rows, similarity) == p.weights.narration)
  {
    hide Total, WithinWindow, NarrationScore;
    var features := ScoreBankGroup(p, rows, expected, reference, utr, day, similarity);
    var support := SupportChecks(p, features, cited);
    if rows != [] {
      assert |support| == 4 && support[3] == SupportCheck(p, features[3], cited);
    } else {
      assert support == [];
    }
  }

  lemma {:induction false} NeverMentioned(p: Policy, f: Facts)
    requires f.gateway != []
    ensures Verdict(ProofChecks(p, f), Support(NarrationFeature)) == None
  {
    CodesLineUp(p, f);
    NoSupportCodes();
    hide ProofChecks, CODES;
    NoSuchCheck(ProofChecks(p, f), Support(NarrationFeature));
  }

  lemma {:induction false} NoSuchCheck(checks: seq<Check>, code: CheckCode)
    requires forall i | 0 <= i < |checks| :: checks[i].code != code
    ensures Verdict(checks, code) == None
  {
    if checks != [] {
      NoSuchCheck(checks[..|checks| - 1], code);
    }
  }
}
