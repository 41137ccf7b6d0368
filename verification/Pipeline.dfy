/** The whole-batch kernel: settle references in order, sweep up what is left, pass every proposal
    through the gate. */
module Pipeline {
  import opened Events
  import opened TextOrder
  import opened Selection
  import opened Context
  import opened Proposals
  import opened SettlementRule
  import opened CaseFacts
  import opened Gate

  // ---- the reference definition -------------------------------------------------------------

  ghost predicate Known(b: Batch, refs: seq<string>) {
    forall i | 0 <= i < |refs| :: GatewaySettlement(b, refs[i]) != []
  }

  /** Settlements are analysed in order, each on the bank rows the earlier ones left. */
  ghost function Cases(b: Batch, refs: seq<string>): (cases: seq<Facts>)
    requires Known(b, refs)
    ensures |cases| == |refs|
  {
    if refs == [] then []
    else
      var before := Cases(b, refs[..|refs| - 1]);
      before + [FactsOf(b, refs[|refs| - 1], ClaimedBank(before))]
  }

  /** Bank rows that earlier cases cite, and so are no longer free. */
  ghost function ClaimedBank(cases: seq<Facts>): set<string> {
    if cases == [] then {}
    else ClaimedBank(cases[..|cases| - 1]) + IdSet(Pick(cases[|cases| - 1]).candidates)
  }

  ghost function ClaimedErp(cases: seq<Facts>): set<string> {
    if cases == [] then {}
    else ClaimedErp(cases[..|cases| - 1]) + IdSet(Flatten(cases[|cases| - 1].journals))
  }

  function OrphanKey(events: seq<Event>, key: string): string
    requires events != []
  {
    if key != "" then key else events[0].recordId
  }

  function LargestAmount(events: seq<Event>): nat {
    if events == [] then 0
    else if LargestAmount(events[1..]) < events[0].amount then events[0].amount
    else LargestAmount(events[1..])
  }

  function OrphanProposal(runId: string, policy: Policy, events: seq<Event>, reason: Reason, key: string): Proposal
    requires events != []
  {
    var links := EvidenceFor(events, Unconsumed);
    Proposal(
      StableId("proposal", runId, OrphanKey(events, key), policy.versionedId),
      OrphanKey(events, key),
      Ids(events),
      [Check(SourceEvidenceMatched, Truth(true), Truth(false), None, false, true, links)],
      links, [reason], RULES, [], 0, LargestAmount(events), false, true, false)
  }

  ghost function AllCases(b: Batch): seq<Facts>
    requires Known(b, SettlementReferences(b))
  {
    Cases(b, SettlementReferences(b))
  }

  ghost function OrphanBank(b: Batch, cases: seq<Facts>): seq<Event> {
    Select(b.events, Unclaimed(Bank, ClaimedBank(cases)))
  }

  ghost function OrphanErp(b: Batch, cases: seq<Facts>): seq<seq<Event>> {
    Journals(Select(b.events, Unclaimed(Erp, ClaimedErp(cases))))
  }

  ghost predicate Grounded(cases: seq<Facts>) {
    forall i | 0 <= i < |cases| :: cases[i].gateway != []
  }

  ghost function CaseProposals(b: Batch, cases: seq<Facts>, similarity: Similarity): (ps: seq<Proposal>)
    requires Grounded(cases)
    ensures |ps| == |cases|
  {
    if cases == [] then []
    else
      var n := |cases| - 1;
      CaseProposals(b, cases[..n], similarity) + [SettlementProposal(b.runId, b.policy, cases[n], similarity)]
  }

  ghost function BankOrphanProposals(b: Batch, rows: seq<Event>): seq<Proposal> {
    seq(|rows|, i requires 0 <= i < |rows| => OrphanProposal(b.runId, b.policy, [rows[i]], OrphanBankCredit, ""))
  }

  ghost function ErpOrphanProposals(b: Batch, journals: seq<seq<Event>>): seq<Proposal>
    requires forall i | 0 <= i < |journals| :: journals[i] != []
  {
    seq(|journals|, i requires 0 <= i < |journals| =>
      OrphanProposal(b.runId, b.policy, journals[i], OrphanErpPosting, JournalId(journals[i][0].recordId)))
  }

  lemma {:induction false} CasesPrefix(b: Batch, refs: seq<string>, i: nat)
    requires Known(b, refs) && i <= |refs|
    ensures Cases(b, refs)[..i] == Cases(b, refs[..i])
  {
    hide FactsOf, ClaimedBank, GatewaySettlement;
    var n := |refs| - 1;
    if i <= n {
      CasesPrefix(b, refs[..n], i);
      assert refs[..n][..i] == refs[..i];
      assert Cases(b, refs)[..i] == Cases(b, refs[..n])[..i];
    } else {
      assert refs[..i] == refs;
    }
  }

  /** Each case is analysed on the rows left by the cases before it. */
  lemma {:induction false} CaseAt(b: Batch, refs: seq<string>, i: nat)
    requires Known(b, refs) && i < |refs|
    ensures Cases(b, refs)[i] == FactsOf(b, refs[i], ClaimedBank(Cases(b, refs)[..i]))
    ensures Cases(b, refs)[i].reference == refs[i]
    ensures Cases(b, refs)[i].gateway == GatewaySettlement(b, refs[i])
  {
    hide ClaimedBank, GatewaySettlement;
    CasesPrefix(b, refs, i);
    CasesPrefix(b, refs, i + 1);
    assert refs[..i + 1][..i] == refs[..i];
    assert Cases(b, refs)[i] == Cases(b, refs)[..i + 1][i];
  }

  /** Every reference that is settled has gateway rows in scope. */
  lemma {:induction false} ReferencesAreKnown(b: Batch)
    requires WellFormed(b)
    ensures Known(b, SettlementReferences(b))
  {
    var gateway := Select(b.events, FromSource(Gateway));
    SelectMembers(b.events, FromSource(Gateway));
    SettlementKeysMembers(gateway);
    SortedDistinctMembers(SettlementKeys(gateway));
    hide SettlementKeys, SortedDistinct, Select, Ordered;
    var refs := SettlementReferences(b);
    forall i | 0 <= i < |refs| ensures GatewaySettlement(b, refs[i]) != [] {
      assert refs[i] in SettlementKeys(gateway);
      var e :| e in gateway && e.settlementRef == refs[i];
      GatewayFacts(b, refs[i]);
      assert e in GatewaySettlement(b, refs[i]);
    }
  }

  /** The cases have gateway rows and the orphaned journals have lines. */
  ghost predicate Presentable(b: Batch, cases: seq<Facts>) {
    && Grounded(cases)
    && (forall i | 0 <= i < |OrphanErp(b, cases)| :: OrphanErp(b, cases)[i] != [])
  }

  lemma {:induction false} CasesArePresentable(b: Batch, refs: seq<string>)
    requires Ordered(b.events) && Known(b, refs)
    ensures Presentable(b, Cases(b, refs))
  {
    var cases := Cases(b, refs);
    forall i | 0 <= i < |cases| ensures cases[i].gateway != [] {
      CaseAt(b, refs, i);
    }
    hide Cases, GatewaySettlement, Ordered, ClaimedErp;
    SelectOrdered(b.events, Unclaimed(Erp, ClaimedErp(cases)));
    JournalsPartition(Select(b.events, Unclaimed(Erp, ClaimedErp(cases))));
    hide Journals, Select;
    var journals := OrphanErp(b, cases);
    forall i | 0 <= i < |journals| ensures journals[i] != [] {
      assert journals[i] in journals;
    }
  }

  ghost function ProposalsFrom(b: Batch, cases: seq<Facts>, similarity: Similarity): seq<Proposal>
    requires Presentable(b, cases)
  {
    CaseProposals(b, cases, similarity)
    + (BankOrphanProposals(b, OrphanBank(b, cases)) + ErpOrphanProposals(b, OrphanErp(b, cases)))
  }

  datatype KernelResult = KernelResult(proposals: seq<Proposal>, decisions: seq<Decision>, exceptions: seq<ExceptionCase>)

  function Decisions(b: Batch, ps: seq<Proposal>): seq<Decision> {
    seq(|ps|, i requires 0 <= i < |ps| => Decide(b.runId, ps[i], b.policy))
  }

  function Exceptions(b: Batch, ps: seq<Proposal>): seq<ExceptionCase> {
    if ps == [] then []
    else
      var last := ps[|ps| - 1];
      var x := CreateException(b.runId, last, Decide(b.runId, last, b.policy), b.policy);
      Exceptions(b, ps[..|ps| - 1]) + (if x.Some? then [x.value] else [])
  }

  /** Would every constructor accept its arguments? */
  predicate Accepted(k: KernelResult) {
    && (forall i | 0 <= i < |k.proposals| :: ProposalAccepted(k.proposals[i]))
    && (forall i | 0 <= i < |k.decisions| :: DecisionAccepted(k.decisions[i]))
    && (forall i | 0 <= i < |k.exceptions| :: ExceptionAccepted(k.exceptions[i]))
  }

  ghost function Kernel(b: Batch, similarity: Similarity): KernelResult
    requires Known(b, SettlementReferences(b)) && Presentable(b, AllCases(b))
  {
    var ps := ProposalsFrom(b, AllCases(b), similarity);
    KernelResult(ps, Decisions(b, ps), Exceptions(b, ps))
  }

  datatype Failure = Refused(why: Refusal) | Raised

  ghost function Outcome(b: Batch, similarity: Similarity): Result<KernelResult, Failure>
    requires WellFormed(b)
  {
    ReferencesAreKnown(b);
    CasesArePresentable(b, SettlementReferences(b));
    if Accepted(Kernel(b, similarity)) then Ok(Kernel(b, similarity)) else Err(Raised)
  }

  // ---- the pipeline itself ------------------------------------------------------------------

  method IndexById(events: seq<Event>) returns (byId: map<string, Event>)
    requires Ordered(events)
    ensures forall e | e in events :: e.eventId in byId && byId[e.eventId] == e
  {
    byId := map[];
    for i := 0 to |events|
      invariant forall k | 0 <= k < i :: events[k].eventId in byId && byId[events[k].eventId] == events[k]
    {
      OrderedIsUnique(events);
      byId := byId[events[i].eventId := events[i]];
    }
  }

  ghost function IdsFrom(events: seq<Event>, source: SourceType): set<string> {
    set e | e in events && e.source == source :: e.eventId
  }

  /** Marks the bank and ERP rows a proposal cites as consumed, looking each one up by id. */
  method Consume(eventIds: seq<string>, byId: map<string, Event>, bank: set<string>, erp: set<string>,
                 ghost members: seq<Event>)
    returns (bank': set<string>, erp': set<string>)
    requires eventIds == Ids(members)
    requires forall e | e in members :: e.eventId in byId && byId[e.eventId] == e
    ensures bank' == bank + IdsFrom(members, Bank) && erp' == erp + IdsFrom(members, Erp)
  {
    bank', erp' := bank, erp;
    for i := 0 to |eventIds|
      invariant bank' == bank + IdsFrom(members[..i], Bank) && erp' == erp + IdsFrom(members[..i], Erp)
    {
      assert members[..i + 1] == members[..i] + [members[i]];
      var event := byId[eventIds[i]];
      match event.source {
        case Bank => bank' := bank' + {eventIds[i]};
        case Erp => erp' := erp' + {eventIds[i]};
        case Gateway =>
      }
    }
    assert members[..|eventIds|] == members;
  }

  lemma {:induction false} ClaimedBySource(b: Batch, reference: string, consumed: set<string>)
    requires Ordered(b.events) && GatewaySettlement(b, reference) != []
    ensures var f := FactsOf(b, reference, consumed);
      && IdsFrom(Members(f), Bank) == IdSet(Pick(f).candidates)
      && IdsFrom(Members(f), Erp) == IdSet(Flatten(f.journals))
      && forall e :: e in Members(f) ==> e in b.events
  {
    MembersOfCase(b, reference, consumed);
  }

  /** What settling one more reference adds. */
  lemma {:induction false} OneMoreCase(b: Batch, refs: seq<string>, i: nat, similarity: Similarity)
    requires Known(b, refs) && i < |refs|
    ensures Known(b, refs[..i]) && Known(b, refs[..i + 1])
    ensures Grounded(Cases(b, refs[..i])) && Grounded(Cases(b, refs[..i + 1]))
    ensures var before, after := Cases(b, refs[..i]), Cases(b, refs[..i + 1]);
      var f := FactsOf(b, refs[i], ClaimedBank(before));
      && CaseProposals(b, after, similarity)
         == CaseProposals(b, before, similarity) + [SettlementProposal(b.runId, b.policy, f, similarity)]
      && ClaimedBank(after) == ClaimedBank(before) + IdSet(Pick(f).candidates)
      && ClaimedErp(after) == ClaimedErp(before) + IdSet(Flatten(f.journals))
  {
    hide SettlementProposal, IdSet, Pick, Flatten;
    assert refs[..i + 1][..i] == refs[..i];
    var before, after := Cases(b, refs[..i]), Cases(b, refs[..i + 1]);
    assert after[..i] == before;
    forall k | 0 <= k <= i ensures after[k].gateway != [] && (k < i ==> before[k].gateway != []) {
      CaseAt(b, refs[..i + 1], k);
      if k < i {
        CaseAt(b, refs[..i], k);
      }
    }
  }

  lemma NoCasesYet(b: Batch, similarity: Similarity)
    ensures Cases(b, []) == [] && CaseProposals(b, [], similarity) == []
    ensures ClaimedBank([]) == {} && ClaimedErp([]) == {}
    ensures Grounded(Cases(b, []))
  {
  }

  /** Settles one reference and marks what its proposal cites. */
  method SettleNext(b: Batch, ix: Indexes, byId: map<string, Event>, reference: string, bank: set<string>, erp: set<string>,
                    similarity: Similarity)
    returns (proposal: Proposal, bank': set<string>, erp': set<string>)
    requires Ordered(b.events) && Faithful(ix, b.events) && GatewaySettlement(b, reference) != []
    requires forall e | e in b.events :: e.eventId in byId && byId[e.eventId] == e
    ensures var f := FactsOf(b, reference, bank);
      && proposal == SettlementProposal(b.runId, b.policy, f, similarity)
      && bank' == bank + IdSet(Pick(f).candidates)
      && erp' == erp + IdSet(Flatten(f.journals))
  {
    hide Ordered, Faithful, GatewaySettlement, FactsOf, SettlementProposal, Members, IdSet, Pick, Flatten, IdsFrom, Ids;
    proposal := AnalyzeSettlement(b, ix, reference, bank, similarity);
    ClaimedBySource(b, reference, bank);
    bank', erp' := Consume(proposal.eventIds, byId, bank, erp, Members(FactsOf(b, reference, bank)));
  }

  method SettleAll(b: Batch, ix: Indexes, byId: map<string, Event>, refs: seq<string>, similarity: Similarity)
    returns (proposals: seq<Proposal>, bank: set<string>, erp: set<string>)
    requires Ordered(b.events) && Faithful(ix, b.events) && Known(b, refs) && Grounded(Cases(b, refs))
    requires forall e | e in b.events :: e.eventId in byId && byId[e.eventId] == e
    ensures proposals == CaseProposals(b, Cases(b, refs), similarity)
    ensures bank == ClaimedBank(Cases(b, refs)) && erp == ClaimedErp(Cases(b, refs))
  {
    NoCasesYet(b, similarity);
    hide Ordered, Faithful, GatewaySettlement, FactsOf, SettlementProposal, Cases, IdSet, Pick, Flatten, Grounded,
         CaseProposals, ClaimedBank, ClaimedErp;
    assert refs[..0] == [] && refs[..|refs|] == refs;
    proposals, bank, erp := [], {}, {};
    for i := 0 to |refs|
      invariant Known(b, refs[..i]) && Grounded(Cases(b, refs[..i]))
      invariant proposals == CaseProposals(b, Cases(b, refs[..i]), similarity)
      invariant bank == ClaimedBank(Cases(b, refs[..i])) && erp == ClaimedErp(Cases(b, refs[..i]))
    {
      OneMoreCase(b, refs, i, similarity);
      var proposal;
      proposal, bank, erp := SettleNext(b, ix, byId, refs[i], bank, erp, similarity);
      proposals := proposals + [proposal];
    }
  }

  method SweepBank(b: Batch, orphans: seq<Event>) returns (proposals: seq<Proposal>)
    ensures proposals == BankOrphanProposals(b, orphans)
  {
    hide OrphanProposal;
    proposals := [];
    for i := 0 to |orphans|
      invariant proposals == BankOrphanProposals(b, orphans)[..i]
    {
      proposals := proposals + [OrphanProposal(b.runId, b.policy, [orphans[i]], OrphanBankCredit, "")];
    }
  }

  method SweepErp(b: Batch, orphans: seq<Event>) returns (proposals: seq<Proposal>)
    requires forall i | 0 <= i < |Journals(orphans)| :: Journals(orphans)[i] != []
    ensures proposals == ErpOrphanProposals(b, Journals(orphans))
  {
    var order, grouped := GroupByJournal(orphans);
    var ids := SortedDistinct(order);
    ghost var journals := Journals(orphans);
    SortedDistinctMembers(order);
    hide OrphanProposal, Select, SortedDistinct, JournalId, JournalKeys;
    proposals := [];
    for i := 0 to |ids|
      invariant proposals == ErpOrphanProposals(b, journals)[..i]
    {
      assert ids[i] in order && grouped[ids[i]] == journals[i];
      SelectMembers(orphans, InJournal(ids[i]));
      assert journals[i][0] in journals[i];
      proposals := proposals + [OrphanProposal(b.runId, b.policy, grouped[ids[i]], OrphanErpPosting, ids[i])];
    }
  }

  /** Proposals for the bank rows and ERP journals that no settlement cited. */
  method OrphanSweep(b: Batch, bank: set<string>, erp: set<string>) returns (proposals: seq<Proposal>)
    requires forall i | 0 <= i < |Unposted(b, erp)| :: Unposted(b, erp)[i] != []
    ensures proposals == BankOrphanProposals(b, Select(b.events, Unclaimed(Bank, bank)))
                       + ErpOrphanProposals(b, Unposted(b, erp))
  {
    hide Journals, Select, BankOrphanProposals, ErpOrphanProposals;
    var ofBank := SweepBank(b, Select(b.events, Unclaimed(Bank, bank)));
    assert Unposted(b, erp) == Journals(Select(b.events, Unclaimed(Erp, erp)));
    var ofErp := SweepErp(b, Select(b.events, Unclaimed(Erp, erp)));
    proposals := ofBank + ofErp;
  }

  ghost function Unposted(b: Batch, erp: set<string>): seq<seq<Event>> {
    Journals(Select(b.events, Unclaimed(Erp, erp)))
  }

  method Gatekeep(b: Batch, proposals: seq<Proposal>) returns (k: KernelResult)
    ensures k == KernelResult(proposals, Decisions(b, proposals), Exceptions(b, proposals))
  {
    hide Decide, CreateException;
    var decisions, exceptions := [], [];
    for i := 0 to |proposals|
      invariant decisions == Decisions(b, proposals)[..i]
      invariant exceptions == Exceptions(b, proposals[..i])
    {
      assert proposals[..i + 1][..i] == proposals[..i];
      var decision := Decide(b.runId, proposals[i], b.policy);
      var x := CreateException(b.runId, proposals[i], decision, b.policy);
      decisions := decisions + [decision];
      if x.Some? {
        exceptions := exceptions + [x.value];
      }
    }
    assert proposals[..|proposals|] == proposals;
    k := KernelResult(proposals, decisions, exceptions);
  }

  /** `reconcile`: refuses what is not one run of one entity in the policy currency; otherwise
      computes the reference kernel, unless a constructor would raise. */
  method Reconcile(events: seq<Event>, policy: Policy, similarity: Similarity)
    returns (r: Result<KernelResult, Failure>)
    requires UniqueIds(events)
    ensures BatchOf(events, policy).Err? ==> r == Err(Refused(BatchOf(events, policy).error))
    ensures BatchOf(events, policy).Ok? ==>
      && WellFormed(BatchOf(events, policy).value)
      && r == Outcome(BatchOf(events, policy).value, similarity)
  {
    hide Ordered, Faithful;
    var built := Build(events, policy);
    if built.Err? {
      return Err(Refused(built.error));
    }
    AcceptedBatchIsWellFormed(events, policy);
    hide BatchOf;
    var (b, ix) := built.value;
    ReferencesAreKnown(b);
    CasesArePresentable(b, SettlementReferences(b));
    hide Known, Presentable, SettlementReferences, Journals, Select, CaseProposals, BankOrphanProposals,
         ErpOrphanProposals, Cases, Decisions, Exceptions, Accepted;
    var byId := IndexById(b.events);
    var settled, bank, erp := SettleAll(b, ix, byId, SettlementReferences(b), similarity);
    assert Unposted(b, erp) == OrphanErp(b, AllCases(b));
    NonEmptyOrphans(b, AllCases(b));
    var orphans := OrphanSweep(b, bank, erp);
    var k := Gatekeep(b, settled + orphans);
    r := if Accepted(k) then Ok(k) else Err(Raised);
  }

  lemma NonEmptyOrphans(b: Batch, cases: seq<Facts>)
    requires Presentable(b, cases)
    ensures forall i | 0 <= i < |OrphanErp(b, cases)| :: OrphanErp(b, cases)[i] != []
    ensures forall i | 0 <= i < |cases| :: cases[i].gateway != []
  {
  }
}
