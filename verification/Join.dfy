/** Stored decisions and exceptions are joined by the set of rows they cite. */
module Join {
  import opened Events
  import opened TextOrder
  import opened Selection
  import opened Context
  import opened Proposals
  import opened SettlementRule
  import opened Gate
  import opened Pipeline
  import opened Partition
  import opened Totality

  function TextSet(ids: seq<string>): set<string> {
    set id | id in ids
  }

  /** `{members: exception}` filled in list order: the last exception of a member set wins. */
  function JoinedTo(exceptions: seq<ExceptionCase>, members: set<string>): Option<ExceptionCase> {
    if exceptions == [] then None
    else if LinkIds(exceptions[|exceptions| - 1].links) == members then Some(exceptions[|exceptions| - 1])
    else JoinedTo(exceptions[..|exceptions| - 1], members)
  }

  datatype CaseView = CaseView(caseId: StableId, decision: Decision, exception: Option<ExceptionCase>)

  function ViewOf(exceptions: seq<ExceptionCase>, d: Decision): CaseView {
    var x := JoinedTo(exceptions, TextSet(d.eventIds));
    CaseView(if x.Some? then x.value.caseId else d.decisionId, d, x)
  }

  /** `list_cases`: index the exceptions by their members, then look every decision up. */
  method ListCases(decisions: seq<Decision>, exceptions: seq<ExceptionCase>) returns (cases: seq<CaseView>)
    ensures |cases| == |decisions|
    ensures forall k | 0 <= k < |decisions| :: cases[k] == ViewOf(exceptions, decisions[k])
  {
    var byMembers: map<set<string>, ExceptionCase> := map[];
    for i := 0 to |exceptions|
      invariant forall members ::
        JoinedTo(exceptions[..i], members) == if members in byMembers then Some(byMembers[members]) else None
    {
      assert exceptions[..i + 1][..i] == exceptions[..i];
      byMembers := byMembers[LinkIds(exceptions[i].links) := exceptions[i]];
    }
    assert exceptions[..|exceptions|] == exceptions;
    cases := [];
    for k := 0 to |decisions|
      invariant |cases| == k && forall j | 0 <= j < k :: cases[j] == ViewOf(exceptions, decisions[j])
    {
      var d := decisions[k];
      var members := TextSet(d.eventIds);
      var x := if members in byMembers then Some(byMembers[members]) else None;
      cases := cases + [CaseView(if x.Some? then x.value.caseId else d.decisionId, d, x)];
    }
  }

  lemma {:induction false} JoinedIsListed(exceptions: seq<ExceptionCase>, members: set<string>)
    ensures JoinedTo(exceptions, members).Some? ==>
      JoinedTo(exceptions, members).value in exceptions && LinkIds(JoinedTo(exceptions, members).value.links) == members
    ensures JoinedTo(exceptions, members).None? ==> forall x | x in exceptions :: LinkIds(x.links) != members
  {
    hide LinkIds;
    if exceptions != [] {
      var init := exceptions[..|exceptions| - 1];
      JoinedIsListed(init, members);
      assert exceptions == init + [exceptions[|exceptions| - 1]];
    }
  }

  // ---- the kernel's member sets -------------------------------------------------------------

  lemma {:induction false} IdsAsSet(rows: seq<Event>)
    ensures TextSet(Ids(rows)) == IdSet(rows)
  {
    forall id ensures id in TextSet(Ids(rows)) <==> id in IdSet(rows) {
      if id in IdSet(rows) {
        var e :| e in rows && e.eventId == id;
        var i :| 0 <= i < |rows| && rows[i] == e;
        assert Ids(rows)[i] == id;
      }
    }
  }

  /** A proposal cites, in its links, exactly the rows it lists. */
  ghost predicate CitesItsMembers(b: Batch, cases: seq<Facts>, similarity: Similarity, k: nat)
    requires Presentable(b, cases) && k < |ProposalsFrom(b, cases, similarity)| && k < |MemberLists(b, cases)|
  {
    var p := ProposalsFrom(b, cases, similarity)[k];
    TextSet(p.eventIds) == IdSet(MemberLists(b, cases)[k]) == LinkIds(p.links)
  }

  lemma {:induction false} OrphanCites(b: Batch, rows: seq<Event>, reason: Reason, key: string)
    requires rows != [] && Ordered(rows)
    ensures LinkIds(OrphanProposal(b.runId, b.policy, rows, reason, key).links) == IdSet(rows)
  {
    OrderedIsUnique(rows);
    EvidenceIsDistinct(rows, Unconsumed);
    hide LargestAmount, LinkIds, IdSet;
  }

  lemma {:induction false} CaseCites(b: Batch, reference: string, consumed: set<string>, similarity: Similarity)
    requires Ordered(b.events) && GatewaySettlement(b, reference) != []
    ensures var f := FactsOf(b, reference, consumed);
      LinkIds(SettlementProposal(b.runId, b.policy, f, similarity).links) == IdSet(Members(f))
  {
    CaseEvidence(b, reference, consumed);
    var f := FactsOf(b, reference, consumed);
    assert SettlementProposal(b.runId, b.policy, f, similarity).links == FirstOfEach(GatewayLinks(f) + BankLinks(f) + ErpLinks(f));
    hide FactsOf, SettlementProposal, LinkIds, Members, FirstOfEach, GatewayLinks, BankLinks, ErpLinks;
  }

  lemma {:induction false} EveryProposalCitesItsMembers(b: Batch, refs: seq<string>, cases: seq<Facts>, similarity: Similarity, k: nat)
    requires WellFormed(b) && Known(b, refs) && cases == Cases(b, refs) && Presentable(b, cases)
    requires k < |ProposalsFrom(b, cases, similarity)|
    ensures k < |MemberLists(b, cases)| && CitesItsMembers(b, cases, similarity, k)
  {
    var n, m := |cases|, |OrphanBank(b, cases)|;
    assert Ordered(b.events);
    hide Cases, Members, OrphanBank, OrphanErp, Known, SettlementProposal, OrphanProposal, WellFormed, FactsOf, ClaimedBank,
         GatewaySettlement, LinkIds, IdSet, Ids, TextSet, Ordered, ProposalsFrom, MemberLists, EvidenceFor, JournalId;
    ProposalsCiteTheirMembers(b, cases, similarity, k);
    IdsAsSet(MemberLists(b, cases)[k]);
    MemberListParts(b, cases, k);
    ProposalListParts(b, cases, similarity, k);
    if k < n {
      CaseAt(b, refs, k);
      CaseCites(b, refs[k], ClaimedBank(cases[..k]), similarity);
    } else if k < n + m {
      SingletonOrdered(OrphanBank(b, cases)[k - n]);
      OrphanCites(b, [OrphanBank(b, cases)[k - n]], OrphanBankCredit, "");
    } else {
      var rows := OrphanErp(b, cases)[k - n - m];
      OrphanJournal(b, cases, k - n - m);
      OrphanCites(b, rows, OrphanErpPosting, JournalId(rows[0].recordId));
    }
  }

  /** Different proposals cite different sets of rows; in fact, disjoint ones. */
  lemma {:induction false} MemberSetsDiffer(b: Batch, refs: seq<string>, cases: seq<Facts>, i: nat, j: nat)
    requires WellFormed(b) && Known(b, refs) && Ascending(refs) && cases == Cases(b, refs)
    requires i < |MemberLists(b, cases)| && j < |MemberLists(b, cases)| && i != j
    ensures IdSet(MemberLists(b, cases)[i]) !! IdSet(MemberLists(b, cases)[j])
    ensures IdSet(MemberLists(b, cases)[i]) != IdSet(MemberLists(b, cases)[j])
  {
    assert Ordered(b.events);
    hide Cases, MemberLists, Known, Ascending, WellFormed, Ordered;
    ListsAreSound(b, refs, cases, i);
    ListsAreSound(b, refs, cases, j);
    if i < j {
      NoRowTwice(b, refs, cases, i, j);
      ApartById(b, MemberLists(b, cases)[i], MemberLists(b, cases)[j]);
    } else {
      NoRowTwice(b, refs, cases, j, i);
      ApartById(b, MemberLists(b, cases)[j], MemberLists(b, cases)[i]);
    }
  }

  lemma {:induction false} ApartById(b: Batch, s: seq<Event>, t: seq<Event>)
    requires Ordered(b.events) && SoundList(b, s) && SoundList(b, t) && Disjoint(s, t)
    ensures IdSet(s) !! IdSet(t) && IdSet(s) != IdSet(t)
  {
    hide Ordered;
    forall id | id in IdSet(s) ensures id !in IdSet(t) {
      if id in IdSet(t) {
        var x :| x in s && x.eventId == id;
        var y :| y in t && y.eventId == id;
        IdDeterminesEvent(b.events, x, y);
      }
    }
    assert s[0] in s;
    assert s[0].eventId in IdSet(s);
  }

  // ---- the join -----------------------------------------------------------------------------

  /** The exception the gate files for the `k`-th proposal, if it files one. */
  ghost function FiledFor(b: Batch, ps: seq<Proposal>, k: nat): Option<ExceptionCase>
    requires k < |ps|
  {
    CreateException(b.runId, ps[k], Decide(b.runId, ps[k], b.policy), b.policy)
  }

  lemma {:induction false} FiledCites(b: Batch, ps: seq<Proposal>, k: nat)
    requires k < |ps|
    ensures FiledFor(b, ps, k).Some? ==> FiledFor(b, ps, k).value.links == ps[k].links
    ensures Decide(b.runId, ps[k], b.policy).eventIds == ps[k].eventIds
  {
    hide Level, FirstListed, FirstAmong;
  }

  /** The member-set join is faithful: however the exceptions of a run are ordered in storage, a
      decision is joined to exactly the exception filed for the same proposal, and to none when none
      was filed. */
  lemma {:induction false} JoinIsFaithful(b: Batch, refs: seq<string>, cases: seq<Facts>, similarity: Similarity,
                                          stored: seq<ExceptionCase>, k: nat)
    requires WellFormed(b) && Known(b, refs) && Ascending(refs) && cases == Cases(b, refs) && Presentable(b, cases)
    requires k < |ProposalsFrom(b, cases, similarity)|
    requires var ps := ProposalsFrom(b, cases, similarity);
      forall x :: x in stored <==> x in Exceptions(b, ps)
    ensures var ps := ProposalsFrom(b, cases, similarity);
      && ViewOf(stored, Decisions(b, ps)[k]).exception == FiledFor(b, ps, k)
      && (ViewOf(stored, Decisions(b, ps)[k]).exception.None? <==> Decisions(b, ps)[k].level == Proved)
  {
    var ps := ProposalsFrom(b, cases, similarity);
    var members := TextSet(ps[k].eventIds);
    hide Cases, Known, Ascending, WellFormed, ProposalsFrom, Exceptions, LinkIds, TextSet, OrphanErp, FirstListed, Level, JoinedTo;
    EveryProposalCitesItsMembers(b, refs, cases, similarity, k);
    FiledCites(b, ps, k);
    JoinedIsListed(stored, members);
    assert FiledFor(b, ps, k).None? <==> Decide(b.runId, ps[k], b.policy).level == Proved;
    assert LinkIds(ps[k].links) == members;
    if FiledFor(b, ps, k).Some? {
      var x := FiledFor(b, ps, k).value;
      ExceptionsComeFromProposals(b, ps, x);
      assert x in Exceptions(b, ps);
      assert x in stored && LinkIds(x.links) == members;
    }
    if JoinedTo(stored, members).Some? {
      JoinedComesFromProposal(b, refs, cases, similarity, JoinedTo(stored, members).value, k);
    }
  }

  lemma {:induction false} JoinedComesFromProposal(b: Batch, refs: seq<string>, cases: seq<Facts>, similarity: Similarity,
                                                   x: ExceptionCase, k: nat)
    requires WellFormed(b) && Known(b, refs) && Ascending(refs) && cases == Cases(b, refs) && Presentable(b, cases)
    requires k < |ProposalsFrom(b, cases, similarity)|
    requires var ps := ProposalsFrom(b, cases, similarity);
      x in Exceptions(b, ps) && LinkIds(x.links) == TextSet(ps[k].eventIds)
    ensures FiledFor(b, ProposalsFrom(b, cases, similarity), k) == Some(x)
  {
    var ps := ProposalsFrom(b, cases, similarity);
    hide Cases, Known, Ascending, WellFormed, ProposalsFrom, Exceptions, LinkIds, TextSet, OrphanErp, CreateException, Decide,
         Presentable;
    ExceptionsComeFromProposals(b, ps, x);
    var i :| 0 <= i < |ps| && CreateException(b.runId, ps[i], Decide(b.runId, ps[i], b.policy), b.policy) == Some(x);
    assert FiledFor(b, ps, i) == Some(x);
    OneProposalPerMemberSet(b, refs, cases, similarity, x, i, k);
  }

  lemma {:induction false} OneProposalPerMemberSet(b: Batch, refs: seq<string>, cases: seq<Facts>, similarity: Similarity,
                                                   x: ExceptionCase, i: nat, k: nat)
    requires WellFormed(b) && Known(b, refs) && Ascending(refs) && cases == Cases(b, refs) && Presentable(b, cases)
    requires i < |ProposalsFrom(b, cases, similarity)| && k < |ProposalsFrom(b, cases, similarity)|
    requires var ps := ProposalsFrom(b, cases, similarity);
      FiledFor(b, ps, i) == Some(x) && LinkIds(x.links) == TextSet(ps[k].eventIds)
    ensures i == k
  {
    hide Cases, Known, Ascending, WellFormed, ProposalsFrom, LinkIds, TextSet, OrphanErp, CreateException, Decide, Presentable,
         IdSet, MemberLists, FiledFor;
    FiledCites(b, ProposalsFrom(b, cases, similarity), i);
    EveryProposalCitesItsMembers(b, refs, cases, similarity, i);
    EveryProposalCitesItsMembers(b, refs, cases, similarity, k);
    if i != k {
      MemberSetsDiffer(b, refs, cases, i, k);
    }
  }
}
