/** The correction loop from the stored rows: draft, post, import again, reconcile again. */
module CorrectionRun {
  import opened Events
  import opened Selection
  import opened Transforms
  import opened Context
  import opened Proposals
  import opened SettlementRule
  import opened CaseFacts
  import opened Gate
  import opened Proof
  import opened Money
  import opened Pipeline
  import opened Renaming
  import opened Mirror
  import opened MirrorRun
  import opened Ledger
  import opened Drafting
  import opened Rerun
  import opened CorrectionLoop

  ghost predicate NamedAccounts(p: Policy) {
    forall role, code | role in {p.bankRole, p.clearingRole, p.feeRole, p.taxRole} && code in role.accounts :: code != ""
  }

  // ---- drafting from the case ---------------------------------------------------------------

  /** `_reference`: the settlement reference of the first gateway row that has one. */
  function FirstReference(events: seq<Event>): Option<string> {
    if events == [] then None
    else if events[0].source == Gateway && events[0].settlementRef != "" then Some(events[0].settlementRef)
    else FirstReference(events[1..])
  }

  lemma {:induction false} FirstReferenceOf(events: seq<Event>, reference: string)
    requires forall e | e in events && e.source == Gateway :: e.settlementRef == reference
    requires reference != "" && exists e :: e in events && e.source == Gateway
    ensures FirstReference(events) == Some(reference)
  {
    if !(events[0].source == Gateway && events[0].settlementRef != "") {
      assert events[0] in events;
      var e :| e in events && e.source == Gateway;
      assert e in events[1..];
      FirstReferenceOf(events[1..], reference);
    }
  }

  /** The journal drafted for a case is posted under the case's own settlement reference. */
  lemma {:induction false} DraftReference(b: Batch, reference: string, consumed: set<string>)
    requires Ordered(b.events) && GatewaySettlement(b, reference) != []
    ensures FirstReference(Members(FactsOf(b, reference, consumed))) == Some(reference)
  {
    var f := FactsOf(b, reference, consumed);
    MembersOfCase(b, reference, consumed);
    GatewayFacts(b, reference);
    assert f.gateway == GatewaySettlement(b, reference);
    hide FactsOf, Members, Pick, Flatten, GatewaySettlement, Ordered;
    assert f.gateway[0] in f.gateway;
    assert f.gateway[0] in Members(f);
    FirstReferenceOf(Members(f), reference);
  }

  /** An exception is filed as a missing posting only if that is among the reasons. */
  lemma {:induction false} FiledReasonIsGiven(order: seq<Reason>, reasons: seq<Reason>)
    ensures FirstListed(order, reasons) in reasons || FirstListed(order, reasons) == UnknownUnresolved
  {
    if order != [] && order[0] !in reasons {
      FiledReasonIsGiven(order[1..], reasons);
    }
  }

  // ---- posting the draft --------------------------------------------------------------------

  lemma {:induction false} PostingsMatch(lines: seq<JournalLine>, slip: Slip, lineages: seq<Lineage>)
    requires |lineages| == |lines|
    ensures var posted := Postings(lines, slip, lineages);
      && |posted| == |lines|
      && (forall i | 0 <= i < |posted| ::
           posted[i].account == lines[i].account && posted[i].amount == lines[i].amount && posted[i].direction == lines[i].direction)
      && forall x | x in posted :: JournalId(x.recordId) == slip.journalId && x.externalRef == slip.reference
  {
    hide Strip, JournalId;
    var posted := Postings(lines, slip, lineages);
    forall x | x in posted ensures JournalId(x.recordId) == slip.journalId && x.externalRef == slip.reference {
      var i :| 0 <= i < |posted| && posted[i] == x;
      PostingJournal(lines[i], i + 1, slip, lineages[i]);
    }
  }

  lemma {:induction false} DraftIsPosted(p: Policy, members: seq<Event>, slip: Slip, lineages: seq<Lineage>)
    requires RolesHaveAccounts(p) && NamedAccounts(p) && Draftable(p, members) && |lineages| == |DraftLines(p, members)|
    ensures var posted := Postings(DraftLines(p, members), slip, lineages);
      && PostsDraft(p, members, posted, slip.journalId) && posted != [] && Ordered(posted)
      && forall x | x in posted :: x.externalRef == slip.reference
  {
    var lines := DraftLines(p, members);
    assert 2 <= |lines| <= 4 by {
      DraftIsAccepted(p, members);
    }
    hide DraftLines, Draftable, Strip, JournalId, Postings, NamedAccounts;
    PostingsAreOrdered(lines, slip, lineages);
    PostingsMatch(lines, slip, lineages);
    hide Ordered;
  }

  lemma {:induction false} LineCurrency(p: Policy, members: seq<Event>)
    requires RolesHaveAccounts(p) && NamedAccounts(p) && Draftable(p, members)
    ensures forall i | 0 <= i < |DraftLines(p, members)| :: DraftLines(p, members)[i].currency == p.currency
  {
    DraftIsAccepted(p, members);
    assert DraftLines(p, members)[0].currency == p.currency;
    hide DraftLines, Draftable, SideSum;
  }

  lemma {:induction false} LinesArePostedUnder(b: Batch, lines: seq<JournalLine>, slip: Slip, lineages: seq<Lineage>)
    requires slip.entity == b.scope.entity && |lineages| == |lines|
    requires forall i | 0 <= i < |lines| :: lines[i].currency == b.scope.currency
    ensures PostedUnder(Postings(lines, slip, lineages), b, slip)
  {
    var posted := Postings(lines, slip, lineages);
    hide Strip, JournalId, EventId;
    forall x | x in posted
      ensures && x.source == Erp && x.runId == slip.runId && InScope(x, b.scope)
              && x.eventId == EventId(slip.runId, Erp, x.recordId) && JournalId(x.recordId) == slip.journalId
    {
      var i :| 0 <= i < |posted| && posted[i] == x;
      PostingJournal(lines[i], i + 1, slip, lineages[i]);
    }
  }

  lemma {:induction false} DraftIsPostedUnder(b: Batch, members: seq<Event>, slip: Slip, lineages: seq<Lineage>)
    requires b.scope.currency == b.policy.currency && slip.entity == b.scope.entity
    requires RolesHaveAccounts(b.policy) && NamedAccounts(b.policy) && Draftable(b.policy, members)
    requires |lineages| == |DraftLines(b.policy, members)|
    ensures PostedUnder(Postings(DraftLines(b.policy, members), slip, lineages), b, slip)
  {
    hide DraftLines, Postings, PostedUnder, NamedAccounts, BankCredits, OfThese, Total;
    LineCurrency(b.policy, members);
    LinesArePostedUnder(b, DraftLines(b.policy, members), slip, lineages);
  }

  // ---- the theorem --------------------------------------------------------------------------

  /** What the loop is given: stored rows of one run, a settlement whose exception is filed as a missing
      posting and for which a journal was drafted, and a slip with a fresh journal id. */
  ghost predicate Correctable(events: seq<Event>, policy: Policy, i: nat, slip: Slip)
  {
    && UniqueIds(events) && BatchOf(events, policy).Ok? && LoopPolicy(policy) && NamedAccounts(policy)
    && var b := BatchOf(events, policy).value;
    && Known(b, SettlementReferences(b)) && i < |SettlementReferences(b)|
    && Issued(b.runId, events) && FreshJournal(events, slip.journalId)
    && slip.entity == b.scope.entity && slip.reference == SettlementReferences(b)[i]
    && var f := AllCases(b)[i];
    && f.gateway != [] && GatewayKinds(f.gateway) && Draftable(policy, Members(f))
    && FirstListed(PRIORITY, Reasons(policy, f)) == MissingErpPosting
  }

  /** The journal drafted for the case. */
  ghost function DraftOf(events: seq<Event>, policy: Policy, i: nat, slip: Slip): seq<JournalLine>
    requires Correctable(events, policy, i, slip)
  {
    DraftLines(policy, Members(AllCases(BatchOf(events, policy).value)[i]))
  }

  /** The batch of the corrected run. */
  ghost function CorrectedBatch(events: seq<Event>, policy: Policy, i: nat, slip: Slip, lineages: map<string, Lineage>,
                                rowLineages: seq<Lineage>): Result<Batch, Refusal>
    requires Correctable(events, policy, i, slip) && |rowLineages| == |DraftOf(events, policy, i, slip)|
  {
    var posted := Postings(DraftOf(events, policy, i, slip), slip, rowLineages);
    BatchOf(CorrectedEvents(BatchOf(events, policy).value.runId, events, slip.runId, lineages, posted), policy)
  }

  /** What the loop promises of the corrected run, when what is posted survives. */
  ghost predicate ClosesIf(b: Batch, next: Result<Batch, Refusal>, r: Renaming, i: nat, similarity: Similarity, survives: bool) {
    && next.Ok?
    && var m, refs := next.value, SettlementReferences(b);
    && m.policy == b.policy && SettlementReferences(m) == refs && Known(b, refs) && Known(m, refs) && i < |refs|
    && Presentable(b, Cases(b, refs)) && Presentable(m, Cases(m, refs))
    && (CaseLevel(m.runId, m.policy, Cases(m, refs)[i], similarity) == Proved
        <==> Reasons(b.policy, Cases(b, refs)[i]) == [MissingErpPosting] && survives)
    && OthersFollow(ProposalsFrom(b, Cases(b, refs), similarity), ProposalsFrom(m, Cases(m, refs), similarity), r, i)
  }

  /** What the loop promises of the corrected run. */
  ghost predicate ClosesOnly(b: Batch, next: Result<Batch, Refusal>, r: Renaming, i: nat, similarity: Similarity) {
    ClosesIf(b, next, r, i, similarity, true)
  }

  ghost predicate OthersFollow(before: seq<Proposal>, after: seq<Proposal>, r: Renaming, i: nat) {
    |after| == |before| && forall k | 0 <= k < |before| && k != i :: Follows(r, FIFTEEN, before[k], after[k])
  }

  /** The batch, the drafted lines and the slip make a posted journal under the case's reference. */
  lemma {:induction false} CorrectedRunPosts(events: seq<Event>, policy: Policy, i: nat, slip: Slip,
                                             lineages: map<string, Lineage>, posted: seq<Event>)
    requires UniqueIds(events) && BatchOf(events, policy).Ok?
    requires var b := BatchOf(events, policy).value;
      && Known(b, SettlementReferences(b)) && i < |SettlementReferences(b)| && Issued(b.runId, events)
      && FreshJournal(events, slip.journalId) && PostedUnder(posted, b, slip) && posted != [] && Ordered(posted)
      && forall x | x in posted :: x.externalRef == SettlementReferences(b)[i]
    ensures var b := BatchOf(events, policy).value;
      var next := BatchOf(CorrectedEvents(b.runId, events, slip.runId, lineages, posted), policy);
      && next.Ok? && next.value.runId == slip.runId
      && Posts(b, next.value, Reimport(b.runId, events, slip.runId, lineages), posted, SettlementReferences(b), i)
  {
    var b := BatchOf(events, policy).value;
    var refs := SettlementReferences(b);
    var r := Reimport(b.runId, events, slip.runId, lineages);
    OrderedIsUnique(posted);
    hide BatchOf, SettlementReferences, Issued, FreshJournal, UniqueIds, Ordered, Reimport, CorrectedEvents, PostedUnder;
    CorrectedBatchMirrors(events, policy, lineages, posted, slip);
    var m := BatchOf(CorrectedEvents(b.runId, events, slip.runId, lineages, posted), policy).value;
    hide Mirrors, Known, Cases, ClaimedBank;
    MirroredCases(b, m, r, posted, refs);
  }

  lemma BatchPolicy(events: seq<Event>, policy: Policy)
    requires BatchOf(events, policy).Ok?
    ensures var b := BatchOf(events, policy).value; b.policy == policy && b.scope.currency == policy.currency
  {
    hide ById;
  }

  /** The drafted journal closes its case and nothing else: in the run that has every row again and the
      drafted lines posted, the settlement is PROVED if and only if the missing posting was the only reason
      against it, and every other proposal keeps its rows, reasons, amount at risk and proof level. */
  lemma {:induction false} PostedDraftCloses(events: seq<Event>, policy: Policy, i: nat, slip: Slip,
                                             lineages: map<string, Lineage>, rowLineages: seq<Lineage>, similarity: Similarity)
    requires Correctable(events, policy, i, slip) && |rowLineages| == |DraftOf(events, policy, i, slip)|
    ensures var b := BatchOf(events, policy).value;
      ClosesOnly(b, CorrectedBatch(events, policy, i, slip, lineages, rowLineages),
                 Reimport(b.runId, events, slip.runId, lineages), i, similarity)
  {
    var b := BatchOf(events, policy).value;
    var members := Members(AllCases(b)[i]);
    BatchPolicy(events, policy);
    FiledReasonIsGiven(PRIORITY, Reasons(policy, AllCases(b)[i]));
    hide Members, Draftable, DraftLines, Reasons, FirstListed, BatchOf, SettlementReferences, Issued, FreshJournal, Cases,
         UniqueIds, GatewayKinds, Reimport, CorrectedEvents, Postings, NamedAccounts, Known, ClosesOnly;
    var posted := Postings(DraftLines(policy, members), slip, rowLineages);
    DraftIsPosted(policy, members, slip, rowLineages);
    DraftIsPostedUnder(b, members, slip, rowLineages);
    hide PostedUnder, PostsDraft, Ordered;
    CorrectedRunPosts(events, policy, i, slip, lineages, posted);
    hide Posts;
    ConcludeClosing(b, CorrectedBatch(events, policy, i, slip, lineages, rowLineages).value,
                    Reimport(b.runId, events, slip.runId, lineages), posted, i, slip.journalId, similarity);
  }

  lemma {:induction false} ConcludeClosing(b: Batch, m: Batch, r: Renaming, posted: seq<Event>, i: nat, journalId: string,
                                           similarity: Similarity)
    requires Posts(b, m, r, posted, SettlementReferences(b), i) && LoopPolicy(b.policy)
    requires var f := AllCases(b)[i];
      && f.gateway != [] && GatewayKinds(f.gateway) && MissingErpPosting in Reasons(b.policy, f)
      && PostsDraft(b.policy, Members(f), posted, journalId)
    ensures ClosesOnly(b, Ok(m), r, i, similarity)
  {
    var refs := SettlementReferences(b);
    assert Known(b, refs) && Known(m, refs) && i < |refs|;
    hide CaseLevel, LoopPolicy, Posts, Known, Cases, Reasons, SettlementReferences, GatewayKinds, PostsDraft, Members, ClosesIf;
    PostingProves(b, m, r, posted, refs, i, journalId, similarity);
    ConcludeIf(b, m, r, posted, i, similarity, true);
  }

  /** Once the level of the corrected settlement is known, the rest follows from the posting alone. */
  lemma {:induction false} ConcludeIf(b: Batch, m: Batch, r: Renaming, posted: seq<Event>, i: nat, similarity: Similarity, survives: bool)
    requires Posts(b, m, r, posted, SettlementReferences(b), i) && LoopPolicy(b.policy)
    requires AllCases(b)[i].gateway != [] && Cases(m, SettlementReferences(b))[i].gateway != []
    requires CaseLevel(m.runId, m.policy, Cases(m, SettlementReferences(b))[i], similarity) == Proved
      <==> Reasons(b.policy, AllCases(b)[i]) == [MissingErpPosting] && survives
    ensures ClosesIf(b, Ok(m), r, i, similarity, survives)
  {
    var refs := SettlementReferences(b);
    assert b.policy.required == FIFTEEN;
    assert Known(b, refs) && Known(m, refs) && i < |refs|;
    SettledReferencesAgree(b, m, r, posted, refs, i);
    hide ProposalsFrom, Follows, CaseLevel, LoopPolicy, Posts, Known, Cases, Presentable, Reasons, SettlementReferences,
         SameOrphans, OthersFollow;
    EveryOtherFollows(b, m, r, posted, refs, i, similarity);
  }

  lemma {:induction false} EveryOtherFollows(b: Batch, m: Batch, r: Renaming, posted: seq<Event>, refs: seq<string>, i: nat,
                                             similarity: Similarity)
    requires Posts(b, m, r, posted, refs, i) && b.policy.required == FIFTEEN
    requires Presentable(b, Cases(b, refs)) && Presentable(m, Cases(m, refs))
    ensures OthersFollow(ProposalsFrom(b, Cases(b, refs), similarity), ProposalsFrom(m, Cases(m, refs), similarity), r, i)
  {
    SettledReferencesAgree(b, m, r, posted, refs, i);
    SameNumber(b, m, r, Cases(b, refs), Cases(m, refs), similarity);
    hide ProposalsFrom, Follows, Posts, Known, Cases, Presentable, SameOrphans;
    forall k: nat | k < |ProposalsFrom(b, Cases(b, refs), similarity)| && k != i
      ensures Follows(r, FIFTEEN, ProposalsFrom(b, Cases(b, refs), similarity)[k],
                      ProposalsFrom(m, Cases(m, refs), similarity)[k])
    {
      NothingElseMoves(b, m, r, posted, refs, i, similarity, k);
    }
  }
}
