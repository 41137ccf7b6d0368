/** Every row is accounted for, exactly once. */
module Partition {
  import opened Events
  import opened TextOrder
  import opened Selection
  import opened Context
  import opened Proposals
  import opened SettlementRule
  import opened CaseFacts
  import opened Pipeline

  /** The rows a run answers for: every bank and ERP row, and every gateway row of a settlement. */
  predicate Accountable(e: Event) {
    e.source != Gateway || e.settlementRef != ""
  }

  function AccountableRows(events: seq<Event>): seq<Event> {
    if events == [] then []
    else (if Accountable(events[0]) then [events[0]] else []) + AccountableRows(events[1..])
  }

  ghost function CaseMembers(cases: seq<Facts>): seq<seq<Event>> {
    seq(|cases|, i requires 0 <= i < |cases| => Members(cases[i]))
  }

  ghost function Singletons(events: seq<Event>): seq<seq<Event>> {
    seq(|events|, i requires 0 <= i < |events| => [events[i]])
  }

  /** The rows behind each proposal, in proposal order. */
  ghost function MemberLists(b: Batch, cases: seq<Facts>): seq<seq<Event>> {
    CaseMembers(cases) + (Singletons(OrphanBank(b, cases)) + OrphanErp(b, cases))
  }

  // ---- proposals and their rows -------------------------------------------------------------

  lemma {:induction false} CaseProposalAt(b: Batch, cases: seq<Facts>, similarity: Similarity, i: nat)
    requires Grounded(cases) && i < |cases|
    ensures CaseProposals(b, cases, similarity)[i] == SettlementProposal(b.runId, b.policy, cases[i], similarity)
  {
    hide SettlementProposal;
    var n := |cases| - 1;
    if i < n {
      CaseProposalAt(b, cases[..n], similarity, i);
    }
  }

  lemma {:induction false} ProposalsCiteTheirMembers(b: Batch, cases: seq<Facts>, similarity: Similarity, i: nat)
    requires Presentable(b, cases) && i < |ProposalsFrom(b, cases, similarity)|
    ensures |ProposalsFrom(b, cases, similarity)| == |MemberLists(b, cases)|
    ensures ProposalsFrom(b, cases, similarity)[i].eventIds == Ids(MemberLists(b, cases)[i])
  {
    hide Members, OrphanBank, OrphanErp, Ids, MemberLists, ProposalsFrom, OrphanProposal, SettlementProposal, Presentable;
    ProposalListParts(b, cases, similarity, i);
    MemberListParts(b, cases, i);
    if i < |cases| {
      CaseIds(b, cases[i], similarity);
    }
    OrphanIds(b);
  }

  lemma CaseIds(b: Batch, f: Facts, similarity: Similarity)
    requires f.gateway != []
    ensures SettlementProposal(b.runId, b.policy, f, similarity).eventIds == Ids(Members(f))
  {
    hide Members, Ids, Features, ProofChecks, SupportChecks, Reasons, FirstOfEach;
  }

  lemma OrphanIds(b: Batch)
    ensures forall rows, reason, key {:trigger OrphanProposal(b.runId, b.policy, rows, reason, key)} ::
      rows != [] ==> OrphanProposal(b.runId, b.policy, rows, reason, key).eventIds == Ids(rows)
  {
    hide Ids, LargestAmount;
  }

  /** Settlements first, then free bank rows, then orphaned journals. */
  lemma {:induction false} ProposalListParts(b: Batch, cases: seq<Facts>, similarity: Similarity, i: nat)
    requires Presentable(b, cases) && i < |ProposalsFrom(b, cases, similarity)|
    ensures var n, m := |cases|, |OrphanBank(b, cases)|;
      var p := ProposalsFrom(b, cases, similarity)[i];
      && |ProposalsFrom(b, cases, similarity)| == |MemberLists(b, cases)| == n + m + |OrphanErp(b, cases)|
      && (i < n ==> cases[i].gateway != [] && p == SettlementProposal(b.runId, b.policy, cases[i], similarity))
      && (n <= i < n + m ==> p == OrphanProposal(b.runId, b.policy, [OrphanBank(b, cases)[i - n]], OrphanBankCredit, ""))
      && (n + m <= i ==>
           var rows := OrphanErp(b, cases)[i - n - m];
           rows != [] && p == OrphanProposal(b.runId, b.policy, rows, OrphanErpPosting, JournalId(rows[0].recordId)))
  {
    hide Members, OrphanBank, OrphanErp, OrphanProposal, SettlementProposal, CaseProposals;
    assert |MemberLists(b, cases)| == |cases| + |OrphanBank(b, cases)| + |OrphanErp(b, cases)|;
    if i < |cases| {
      CaseProposalAt(b, cases, similarity, i);
    }
  }

  // ---- claimed rows -------------------------------------------------------------------------

  lemma {:induction false} ClaimedBankMeans(cases: seq<Facts>, id: string)
    ensures id in ClaimedBank(cases) <==> exists i :: 0 <= i < |cases| && id in IdSet(Pick(cases[i]).candidates)
  {
    hide Pick, IdSet;
    if cases != [] {
      var init := cases[..|cases| - 1];
      ClaimedBankMeans(init, id);
      assert cases == init + [cases[|cases| - 1]];
    }
  }

  lemma {:induction false} ClaimedErpMeans(cases: seq<Facts>, id: string)
    ensures id in ClaimedErp(cases) <==> exists i :: 0 <= i < |cases| && id in IdSet(Flatten(cases[i].journals))
  {
    hide Flatten, IdSet;
    if cases != [] {
      var init := cases[..|cases| - 1];
      ClaimedErpMeans(init, id);
      assert cases == init + [cases[|cases| - 1]];
    }
  }

  // ---- the rows of the cases ----------------------------------------------------------------

  /** Row `e` belongs to case `i` of the run. */
  ghost predicate InCase(b: Batch, cases: seq<Facts>, i: nat, e: Event)
    requires i < |cases|
  {
    Belongs(b, cases[i], e)
  }

  lemma {:induction false} CaseRows(b: Batch, refs: seq<string>, i: nat)
    requires WellFormed(b) && Known(b, refs) && i < |refs|
    ensures var cases := Cases(b, refs);
      && cases[i].reference == refs[i]
      && Ordered(Members(cases[i])) && Members(cases[i]) != []
      && (forall e :: e in Members(cases[i]) <==> Belongs(b, cases[i], e))
      && (forall e :: e in Pick(cases[i]).candidates <==> Belongs(b, cases[i], e) && e.source == Bank)
      && (forall e :: e in Flatten(cases[i].journals) <==> Belongs(b, cases[i], e) && e.source == Erp)
      && (forall e :: e in Pick(cases[i]).candidates ==> e.eventId !in ClaimedBank(cases[..i]))
  {
    var cases := Cases(b, refs);
    CaseAt(b, refs, i);
    var consumed := ClaimedBank(cases[..i]);
    MembersOfCase(b, refs[i], consumed);
    PickIsSound(b, refs[i], consumed);
    hide Cases, FactsOf, Members, Pick, Flatten, ClaimedBank, GatewaySettlement;
    var first := cases[i].gateway[0];
    assert first in cases[i].gateway;
    assert first in Members(cases[i]);
  }

  lemma {:induction false} NoSharedRows(b: Batch, refs: seq<string>, i: nat, j: nat, e: Event)
    requires WellFormed(b) && Known(b, refs) && Ascending(refs) && i < j < |refs|
    requires Belongs(b, Cases(b, refs)[i], e)
    ensures !Belongs(b, Cases(b, refs)[j], e)
  {
    var cases := Cases(b, refs);
    CaseRows(b, refs, i);
    CaseRows(b, refs, j);
    if e.source == Bank {
      ClaimedBankMeans(cases[..j], e.eventId);
      assert cases[..j][i] == cases[i];
      assert e.eventId in IdSet(Pick(cases[i]).candidates);
    } else if refs[i] == refs[j] {
      AscendingHasNoRepeats(refs, i, j);
    }
  }

  lemma {:induction false} TakenByCase(b: Batch, refs: seq<string>, i: nat, e: Event)
    requires WellFormed(b) && Known(b, refs) && i < |refs| && e in b.events
    ensures e.eventId in IdSet(Pick(Cases(b, refs)[i]).candidates) <==> e.source == Bank && InCase(b, Cases(b, refs), i, e)
    ensures e.eventId in IdSet(Flatten(Cases(b, refs)[i].journals)) <==> e.source == Erp && InCase(b, Cases(b, refs), i, e)
  {
    CaseRows(b, refs, i);
    hide Cases, Pick, Flatten;
    forall x | x in b.events && x.eventId == e.eventId ensures x == e {
      IdDeterminesEvent(b.events, x, e);
    }
  }

  /** A bank row is left over exactly when no case took it. */
  lemma {:induction false} BankLeftOver(b: Batch, refs: seq<string>, e: Event)
    requires WellFormed(b) && Known(b, refs) && e in b.events && e.source == Bank
    ensures var cases := Cases(b, refs);
      e.eventId !in ClaimedBank(cases) <==> forall i | 0 <= i < |refs| :: !InCase(b, cases, i, e)
  {
    var cases := Cases(b, refs);
    ClaimedBankMeans(cases, e.eventId);
    hide Cases, ClaimedBank, Pick, Flatten, InCase, WellFormed, Known, IdSet;
    forall i: nat | i < |refs| ensures e.eventId in IdSet(Pick(cases[i]).candidates) <==> InCase(b, cases, i, e) {
      TakenByCase(b, refs, i, e);
    }
  }

  /** An ERP row is left over exactly when no case took it. */
  lemma {:induction false} ErpLeftOver(b: Batch, refs: seq<string>, e: Event)
    requires WellFormed(b) && Known(b, refs) && e in b.events && e.source == Erp
    ensures var cases := Cases(b, refs);
      e.eventId !in ClaimedErp(cases) <==> forall i | 0 <= i < |refs| :: !InCase(b, cases, i, e)
  {
    var cases := Cases(b, refs);
    ClaimedErpMeans(cases, e.eventId);
    hide Cases, ClaimedErp, Pick, Flatten, InCase, WellFormed, Known, IdSet;
    forall i: nat | i < |refs| ensures e.eventId in IdSet(Flatten(cases[i].journals)) <==> InCase(b, cases, i, e) {
      TakenByCase(b, refs, i, e);
    }
  }

  // ---- the partition ------------------------------------------------------------------------

  lemma {:induction false} OrphanBankRows(b: Batch, cases: seq<Facts>)
    requires Ordered(b.events)
    ensures Ordered(OrphanBank(b, cases))
    ensures forall e ::
      e in OrphanBank(b, cases) <==> e in b.events && e.source == Bank && e.eventId !in ClaimedBank(cases)
  {
    hide ClaimedBank;
    SelectMembers(b.events, Unclaimed(Bank, ClaimedBank(cases)));
    SelectOrdered(b.events, Unclaimed(Bank, ClaimedBank(cases)));
  }

  ghost function OrphanErpLines(b: Batch, cases: seq<Facts>): seq<Event> {
    Select(b.events, Unclaimed(Erp, ClaimedErp(cases)))
  }

  lemma {:induction false} OrphanErpRows(b: Batch, cases: seq<Facts>)
    requires Ordered(b.events)
    ensures OrphanErp(b, cases) == Journals(OrphanErpLines(b, cases)) && Ordered(OrphanErpLines(b, cases))
    ensures forall e ::
      e in OrphanErpLines(b, cases) <==> e in b.events && e.source == Erp && e.eventId !in ClaimedErp(cases)
  {
    hide ClaimedErp;
    SelectMembers(b.events, Unclaimed(Erp, ClaimedErp(cases)));
    SelectOrdered(b.events, Unclaimed(Erp, ClaimedErp(cases)));
  }

  lemma {:induction false} OrphanJournal(b: Batch, cases: seq<Facts>, k: nat)
    requires Ordered(b.events) && k < |OrphanErp(b, cases)|
    ensures var g := OrphanErp(b, cases)[k];
      g != [] && Ordered(g) && forall e | e in g :: e in b.events && e.source == Erp && e.eventId !in ClaimedErp(cases)
  {
    OrphanErpRows(b, cases);
    var lines := OrphanErpLines(b, cases);
    hide OrphanErp, OrphanErpLines, ClaimedErp;
    JournalsPartition(lines);
    var g := Journals(lines)[k];
    assert g in Journals(lines);
    hide Journals, Flatten, Ordered;
    forall e | e in g ensures e in lines {
      FlattenMembers(Journals(lines), e);
    }
  }

  /** Where the `i`-th list of members comes from. */
  lemma MemberListParts(b: Batch, cases: seq<Facts>, i: nat)
    requires i < |MemberLists(b, cases)|
    ensures var n, m := |cases|, |OrphanBank(b, cases)|;
      && (i < n ==> MemberLists(b, cases)[i] == Members(cases[i]))
      && (n <= i < n + m ==> MemberLists(b, cases)[i] == [OrphanBank(b, cases)[i - n]])
      && (n + m <= i ==> i - n - m < |OrphanErp(b, cases)| && MemberLists(b, cases)[i] == OrphanErp(b, cases)[i - n - m])
  {
    hide Members, OrphanBank, OrphanErp;
    assert |CaseMembers(cases)| == |cases|;
  }

  /** Some rows of the batch that the run is accountable for, in id order and so without repeats. */
  ghost predicate SoundList(b: Batch, rows: seq<Event>) {
    rows != [] && Ordered(rows) && forall e | e in rows :: e in b.events && Accountable(e)
  }

  lemma {:induction false} CaseListIsSound(b: Batch, refs: seq<string>, i: nat)
    requires WellFormed(b) && Known(b, refs) && i < |refs|
    ensures SoundList(b, Members(Cases(b, refs)[i]))
  {
    CaseRows(b, refs, i);
    hide Cases, Members, Pick, Known, Flatten;
  }

  lemma {:induction false} OrphanBankListIsSound(b: Batch, cases: seq<Facts>, k: nat)
    requires Ordered(b.events) && k < |OrphanBank(b, cases)|
    ensures SoundList(b, [OrphanBank(b, cases)[k]])
  {
    OrphanBankRows(b, cases);
    hide OrphanBank;
    assert OrphanBank(b, cases)[k] in OrphanBank(b, cases);
  }

  lemma {:induction false} OrphanErpListIsSound(b: Batch, cases: seq<Facts>, k: nat)
    requires Ordered(b.events) && k < |OrphanErp(b, cases)|
    ensures SoundList(b, OrphanErp(b, cases)[k])
  {
    OrphanJournal(b, cases, k);
    hide OrphanErp;
  }

  /** Every proposal cites some rows of the batch, and only rows the run is accountable for. */
  lemma {:induction false} ListsAreSound(b: Batch, refs: seq<string>, cases: seq<Facts>, i: nat)
    requires WellFormed(b) && Known(b, refs) && cases == Cases(b, refs) && i < |MemberLists(b, cases)|
    ensures SoundList(b, MemberLists(b, cases)[i])
  {
    hide Cases, Members, OrphanBank, OrphanErp, MemberLists, Known, SoundList;
    var n, m := |cases|, |OrphanBank(b, cases)|;
    MemberListParts(b, cases, i);
    if i < n {
      CaseListIsSound(b, refs, i);
    } else if i < n + m {
      OrphanBankListIsSound(b, cases, i - n);
    } else {
      OrphanErpListIsSound(b, cases, i - n - m);
    }
  }

  /** Row `e` is cited by some proposal. */
  ghost predicate Cited(b: Batch, cases: seq<Facts>, e: Event) {
    exists i :: 0 <= i < |MemberLists(b, cases)| && e in MemberLists(b, cases)[i]
  }

  lemma {:induction false} RowOfCaseIsCited(b: Batch, refs: seq<string>, i: nat, e: Event)
    requires WellFormed(b) && Known(b, refs) && i < |refs| && InCase(b, Cases(b, refs), i, e)
    ensures Cited(b, Cases(b, refs), e)
  {
    CaseRows(b, refs, i);
    hide Cases, Members, OrphanBank, OrphanErp, Pick, Flatten, Known;
    MemberListParts(b, Cases(b, refs), i);
    assert e in MemberLists(b, Cases(b, refs))[i];
  }

  lemma {:induction false} BankOrphanIsCited(b: Batch, cases: seq<Facts>, e: Event)
    requires Ordered(b.events) && e in b.events && e.source == Bank && e.eventId !in ClaimedBank(cases)
    ensures Cited(b, cases, e)
  {
    OrphanBankRows(b, cases);
    hide OrphanBank, OrphanErp, ClaimedBank, Members, Ordered, MemberLists, Cited;
    var k :| 0 <= k < |OrphanBank(b, cases)| && OrphanBank(b, cases)[k] == e;
    OrphanBankIsListed(b, cases, k);
  }

  lemma {:induction false} OrphanBankIsListed(b: Batch, cases: seq<Facts>, k: nat)
    requires k < |OrphanBank(b, cases)|
    ensures Cited(b, cases, OrphanBank(b, cases)[k])
  {
    hide OrphanBank, OrphanErp, Members;
    assert |CaseMembers(cases)| == |cases|;
    assert |MemberLists(b, cases)| > |cases| + k;
    MemberListParts(b, cases, |cases| + k);
    hide MemberLists;
    assert OrphanBank(b, cases)[k] in MemberLists(b, cases)[|cases| + k];
  }

  lemma {:induction false} ErpOrphanIsCited(b: Batch, cases: seq<Facts>, e: Event)
    requires Ordered(b.events) && e in b.events && e.source == Erp && e.eventId !in ClaimedErp(cases)
    ensures Cited(b, cases, e)
  {
    OrphanErpRows(b, cases);
    JournalOfLine(OrphanErpLines(b, cases), e);
    hide OrphanBank, OrphanErp, OrphanErpLines, Journals, ClaimedErp, Members;
    var journals := OrphanErp(b, cases);
    var k :| 0 <= k < |journals| && e in journals[k];
    var at := |cases| + |OrphanBank(b, cases)| + k;
    assert |CaseMembers(cases)| == |cases|;
    MemberListParts(b, cases, at);
    assert e in MemberLists(b, cases)[at];
  }

  lemma {:induction false} SettledGatewayRow(b: Batch, e: Event) returns (i: nat)
    requires WellFormed(b) && Known(b, SettlementReferences(b)) && e in b.events && e.source == Gateway && e.settlementRef != ""
    ensures i < |SettlementReferences(b)| && InCase(b, AllCases(b), i, e)
  {
    var gateway := Select(b.events, FromSource(Gateway));
    SelectMembers(b.events, FromSource(Gateway));
    SettlementKeysMembers(gateway);
    SortedDistinctMembers(SettlementKeys(gateway));
    var refs := SettlementReferences(b);
    assert e.settlementRef in refs;
    i :| 0 <= i < |refs| && refs[i] == e.settlementRef;
    CaseRows(b, refs, i);
  }

  /** Every accountable row is cited by some proposal. */
  lemma {:induction false} EveryRowIsCited(b: Batch, e: Event)
    requires WellFormed(b) && Known(b, SettlementReferences(b)) && e in b.events && Accountable(e)
    ensures Cited(b, AllCases(b), e)
  {
    var refs := SettlementReferences(b);
    var cases := Cases(b, refs);
    hide Cases, MemberLists, ClaimedBank, ClaimedErp, SettlementReferences, InCase, Known, Cited;
    if i: nat :| i < |refs| && InCase(b, cases, i, e) {
      RowOfCaseIsCited(b, refs, i, e);
    } else if e.source == Gateway {
      var i := SettledGatewayRow(b, e);
    } else if e.source == Bank {
      BankLeftOver(b, refs, e);
      BankOrphanIsCited(b, cases, e);
    } else {
      ErpLeftOver(b, refs, e);
      ErpOrphanIsCited(b, cases, e);
    }
  }

  // ---- no row twice -------------------------------------------------------------------------

  ghost predicate Disjoint(s: seq<Event>, t: seq<Event>) {
    forall e | e in s :: e !in t
  }

  lemma {:induction false} CasesAreDisjoint(b: Batch, refs: seq<string>, i: nat, j: nat)
    requires WellFormed(b) && Known(b, refs) && Ascending(refs) && i < j < |refs|
    ensures Disjoint(Members(Cases(b, refs)[i]), Members(Cases(b, refs)[j]))
  {
    CaseRows(b, refs, i);
    CaseRows(b, refs, j);
    hide Cases, Members, Belongs, Pick, Flatten, Known, WellFormed, Ascending;
    forall e | e in Members(Cases(b, refs)[i]) ensures e !in Members(Cases(b, refs)[j]) {
      NoSharedRows(b, refs, i, j, e);
    }
  }

  lemma {:induction false} CaseAvoidsOrphanBank(b: Batch, refs: seq<string>, i: nat, k: nat)
    requires WellFormed(b) && Known(b, refs) && i < |refs| && k < |OrphanBank(b, Cases(b, refs))|
    ensures Disjoint(Members(Cases(b, refs)[i]), [OrphanBank(b, Cases(b, refs))[k]])
  {
    var cases := Cases(b, refs);
    OrphanBankRows(b, cases);
    var e := OrphanBank(b, cases)[k];
    assert e in OrphanBank(b, cases);
    hide Cases, Members, Pick, Flatten, Known, ClaimedBank, OrphanBank, Ordered;
    BankLeftOver(b, refs, e);
    CaseRows(b, refs, i);
    assert !InCase(b, cases, i, e);
  }

  lemma {:induction false} CaseAvoidsOrphanErp(b: Batch, refs: seq<string>, i: nat, k: nat)
    requires WellFormed(b) && Known(b, refs) && i < |refs| && k < |OrphanErp(b, Cases(b, refs))|
    ensures Disjoint(Members(Cases(b, refs)[i]), OrphanErp(b, Cases(b, refs))[k])
  {
    var cases := Cases(b, refs);
    OrphanJournal(b, cases, k);
    CaseRows(b, refs, i);
    hide Cases, Members, Pick, Flatten, Known, ClaimedErp, OrphanErp, Ordered, InCase, Belongs;
    forall e | e in OrphanErp(b, cases)[k] ensures e !in Members(cases[i]) {
      ErpLeftOver(b, refs, e);
      assert !InCase(b, cases, i, e);
      InCaseIsBelongs(b, cases, i, e);
    }
  }

  lemma InCaseIsBelongs(b: Batch, cases: seq<Facts>, i: nat, e: Event)
    requires i < |cases|
    ensures InCase(b, cases, i, e) <==> Belongs(b, cases[i], e)
  {
  }

  lemma {:induction false} OrphansAreDisjoint(b: Batch, cases: seq<Facts>, i: nat, j: nat)
    requires Ordered(b.events)
    requires |cases| <= i < j < |MemberLists(b, cases)|
    ensures Disjoint(MemberLists(b, cases)[i], MemberLists(b, cases)[j])
  {
    var n, m := |cases|, |OrphanBank(b, cases)|;
    MemberListParts(b, cases, i);
    MemberListParts(b, cases, j);
    OrphanBankRows(b, cases);
    OrphanErpRows(b, cases);
    var bank, lines := OrphanBank(b, cases), OrphanErpLines(b, cases);
    hide MemberLists, OrphanErp, OrphanErpLines, ClaimedBank, ClaimedErp;
    if j < n + m {
      Irreflexive(bank[i - n].eventId);
    } else if i < n + m {
      hide Journals;
      OrphanJournal(b, cases, j - n - m);
      assert bank[i - n] in bank;
    } else {
      hide Journals;
      JournalsPartition(lines);
    }
  }

  /** No row is cited by two proposals. */
  lemma {:induction false} NoRowTwice(b: Batch, refs: seq<string>, cases: seq<Facts>, i: nat, j: nat)
    requires WellFormed(b) && Known(b, refs) && Ascending(refs) && cases == Cases(b, refs)
    requires i < j < |MemberLists(b, cases)|
    ensures Disjoint(MemberLists(b, cases)[i], MemberLists(b, cases)[j])
  {
    hide Cases, Members, OrphanBank, OrphanErp, MemberLists, Known, Disjoint, Ascending;
    var n, m := |cases|, |OrphanBank(b, cases)|;
    MemberListParts(b, cases, i);
    MemberListParts(b, cases, j);
    if n <= i {
      OrphansAreDisjoint(b, cases, i, j);
    } else if j < n {
      CasesAreDisjoint(b, refs, i, j);
    } else if j < n + m {
      CaseAvoidsOrphanBank(b, refs, i, j - n);
    } else {
      CaseAvoidsOrphanErp(b, refs, i, j - n - m);
    }
  }

  // ---- the theorem --------------------------------------------------------------------------

  lemma {:induction false} AccountableRowsMembers(events: seq<Event>)
    ensures forall e :: e in AccountableRows(events) <==> e in events && Accountable(e)
    ensures Ordered(events) ==> UniqueIds(AccountableRows(events))
  {
    if events != [] {
      AccountableRowsMembers(events[1..]);
      if Ordered(events) {
        OrderedIsUnique(events);
        assert forall e | e in events[1..] :: e.eventId != events[0].eventId;
      }
    }
  }

  lemma {:induction false} SelectUnique(s: seq<Event>, c: Criterion)
    requires UniqueIds(s)
    ensures UniqueIds(Select(s, c))
  {
    hide Meets;
    if s != [] {
      SelectUnique(s[1..], c);
      SelectMembers(s[1..], c);
      var rest := Select(s[1..], c);
      forall j | 0 <= j < |rest| ensures rest[j].eventId != s[0].eventId {
        assert rest[j] in rest;
      }
    }
  }

  /** The rows cited by all proposals together are the accountable rows, each exactly once; so the
      bank and ledger amounts over all decisions are the input totals. */
  lemma {:induction false} EveryRowOnce(b: Batch)
    requires WellFormed(b) && Known(b, SettlementReferences(b))
    ensures var all := Flatten(MemberLists(b, AllCases(b)));
      && UniqueIds(all)
      && multiset(all) == multiset(AccountableRows(b.events))
      && Total(all) == Total(AccountableRows(b.events))
      && Total(Select(all, FromSource(Bank))) == Total(Select(b.events, FromSource(Bank)))
      && Total(Select(all, FromSource(Erp))) == Total(Select(b.events, FromSource(Erp)))
  {
    var refs, cases := SettlementReferences(b), AllCases(b);
    var lists := MemberLists(b, cases);
    var all, rows := Flatten(lists), AccountableRows(b.events);
    SortedDistinctAscending(SettlementKeys(Select(b.events, FromSource(Gateway))));
    AllListsTogether(b, refs, cases);
    AccountableRowsMembers(b.events);
    OrderedIsUnique(b.events);
    hide MemberLists, Cases, SettlementReferences, Flatten, AccountableRows, Select, Ordered, Total, Known, Cited;
    forall e ensures e in all <==> e in rows {
      if e in rows {
        EveryRowIsCited(b, e);
        CitedIsInFlatten(b, cases, e);
      }
    }
    PermutationsHaveEqualTotals(all, rows);
    SourceTotals(b, all, Bank);
    SourceTotals(b, all, Erp);
  }

  lemma {:induction false} CitedIsInFlatten(b: Batch, cases: seq<Facts>, e: Event)
    requires Cited(b, cases, e)
    ensures e in Flatten(MemberLists(b, cases))
  {
    hide MemberLists;
    var i :| 0 <= i < |MemberLists(b, cases)| && e in MemberLists(b, cases)[i];
    FlattenMembers(MemberLists(b, cases), e);
    assert MemberLists(b, cases)[i] in MemberLists(b, cases);
  }

  lemma {:induction false} SourceTotals(b: Batch, all: seq<Event>, source: SourceType)
    requires UniqueIds(all) && UniqueIds(b.events) && source != Gateway
    requires forall e :: e in all <==> e in b.events && Accountable(e)
    ensures Total(Select(all, FromSource(source))) == Total(Select(b.events, FromSource(source)))
  {
    SelectUnique(all, FromSource(source));
    SelectUnique(b.events, FromSource(source));
    SelectMembers(all, FromSource(source));
    SelectMembers(b.events, FromSource(source));
    hide Select, Total;
    PermutationsHaveEqualTotals(Select(all, FromSource(source)), Select(b.events, FromSource(source)));
  }

  lemma {:induction false} AllListsTogether(b: Batch, refs: seq<string>, cases: seq<Facts>)
    requires WellFormed(b) && Known(b, refs) && Ascending(refs) && cases == Cases(b, refs)
    ensures UniqueIds(Flatten(MemberLists(b, cases)))
    ensures forall e | e in Flatten(MemberLists(b, cases)) :: e in b.events && Accountable(e)
  {
    var lists := MemberLists(b, cases);
    hide MemberLists, Cases, Flatten, Known, Ascending;
    forall i: nat | i < |lists|
      ensures Ordered(lists[i]) && forall e | e in lists[i] :: e in b.events && Accountable(e)
    {
      ListsAreSound(b, refs, cases, i);
    }
    forall i: nat, j: nat, e | i < j < |lists| && e in lists[i] ensures e !in lists[j] {
      NoRowTwice(b, refs, cases, i, j);
    }
    FlattenUnique(lists, b.events);
    forall e | e in Flatten(lists) ensures e in b.events && Accountable(e) {
      FlattenMembers(lists, e);
    }
  }
}
