/** Posting the drafted journal and running again proves the settlement, when nothing else opposed it. */
module Correction {
  import opened Events
  import opened TextOrder
  import opened Selection
  import opened Context
  import opened Proposals
  import opened SettlementRule
  import opened CaseFacts
  import opened Verdicts
  import opened Money
  import opened Renaming
  import opened Mirror
  import opened Invariance
  import opened MirrorRun
  import opened Ledger
  import opened Drafting
  import opened Rerun

  // ---- one missing posting ------------------------------------------------------------------

  /** Every condition on the gateway and bank side but the receipt direction. */
  ghost predicate BankSideHolds(p: Policy, f: Facts)
    requires f.gateway != []
  {
    && SettlementUnique(f) && ComponentsAgree(p, f) && BankPresent(f) && BankAmountAgrees(p, f)
    && UtrAgrees(f) && DatesFit(p, f) && BankUnique(f)
  }

  /** The remaining conditions, on the ledger side. */
  ghost predicate LedgerHolds(p: Policy, f: Facts) {
    ErpPresent(f) && ErpUnique(f) && Balanced(f) && RolesAgree(p, f)
  }

  lemma {:induction false} EarlierReasons(p: Policy, f: Facts)
    requires f.gateway != []
    ensures MissingErpPosting !in GatewayReasons(p, f) && MissingErpPosting !in BankReasons(p, f)
    ensures p.bankTolerance == 0 ==> (GatewayReasons(p, f) + BankReasons(p, f) == [] <==> BankSideHolds(p, f))
  {
    if p.bankTolerance == 0 {
      ConflictMissesTheAmount(p, f);
    }
    hide Pick, Total, Net, SettlementRows, ComponentsAgree, UtrAgrees, Anchor, IdentifierConflict, BankAmountAgrees;
  }

  lemma {:induction false} LedgerReasons(p: Policy, f: Facts)
    ensures f.journals == [] ==> ErpReasons(p, f) == [MissingErpPosting]
    ensures f.journals != [] ==> MissingErpPosting !in ErpReasons(p, f)
  {
    hide SideTotal, RolesAgree;
  }

  /** A missing posting is reported exactly when there is no journal, and it is the only reason
      exactly when the gateway and bank side is sound. */
  lemma {:induction false} MissingPosting(p: Policy, f: Facts)
    requires f.gateway != [] && p.bankTolerance == 0
    ensures MissingErpPosting in Reasons(p, f) <==> f.journals == []
    ensures Reasons(p, f) == [MissingErpPosting] <==> f.journals == [] && BankSideHolds(p, f)
  {
    EarlierReasons(p, f);
    LedgerReasons(p, f);
    assert Reasons(p, f) == WithoutRepeats(GatewayReasons(p, f) + BankReasons(p, f) + ErpReasons(p, f));
    hide GatewayReasons, BankReasons, ErpReasons, BankSideHolds, WithoutRepeats, Reasons;
    LastWord(GatewayReasons(p, f) + BankReasons(p, f), ErpReasons(p, f), MissingErpPosting);
  }

  lemma {:induction false} LastWord(earlier: seq<Reason>, later: seq<Reason>, reason: Reason)
    requires reason !in earlier && (later == [reason] || reason !in later)
    ensures reason in WithoutRepeats(earlier + later) <==> later == [reason]
    ensures WithoutRepeats(earlier + later) == [reason] <==> earlier == [] && later == [reason]
  {
    WithoutRepeatsMembers(earlier + later);
    OnlyOne(reason);
    hide WithoutRepeats;
    assert reason in [reason];
    if earlier == [] {
      assert earlier + later == later;
    } else {
      assert (earlier + later)[0] == earlier[0];
      assert earlier[0] in earlier + later && earlier[0] in earlier;
    }
  }

  lemma OnlyOne(reason: Reason)
    ensures WithoutRepeats([reason]) == [reason]
  {
  }

  // ---- the one receipt ----------------------------------------------------------------------

  lemma {:induction false} CreditsOfCase(b: Batch, reference: string, consumed: set<string>)
    requires Ordered(b.events) && GatewaySettlement(b, reference) != []
    ensures var f := FactsOf(b, reference, consumed);
      && Ordered(BankCredits(Members(f)))
      && (forall e :: e in BankCredits(Members(f)) <==> e in Pick(f).candidates && e.direction == Credit)
  {
    var f := FactsOf(b, reference, consumed);
    MembersOfCase(b, reference, consumed);
    hide FactsOf, Members, Pick, Flatten, Belongs, GatewaySettlement, Ordered, BankCredits;
    CreditsAmong(Members(f));
  }

  lemma {:induction false} GatewayOfCase(b: Batch, reference: string, consumed: set<string>)
    requires Ordered(b.events) && GatewaySettlement(b, reference) != []
    ensures var f := FactsOf(b, reference, consumed); FromGateway(Members(f)) == f.gateway
  {
    var f := FactsOf(b, reference, consumed);
    MembersOfCase(b, reference, consumed);
    assert Ordered(f.gateway) by {
      GatewayFacts(b, reference);
    }
    hide FactsOf, Members, Pick, Flatten, Belongs, GatewaySettlement, Ordered, FromGateway;
    GatewayAmong(Members(f), f.gateway);
  }

  lemma {:induction false} GatewayAmong(rows: seq<Event>, part: seq<Event>)
    requires Ordered(rows) && Ordered(part)
    requires forall e :: e in part <==> e in rows && e.source == Gateway
    ensures FromGateway(rows) == part
  {
    SelectMembers(rows, FromSource(Gateway));
    SelectOrdered(rows, FromSource(Gateway));
    hide Select, Ordered;
    OrderedExtensional(FromGateway(rows), part);
  }

  lemma {:induction false} CreditsAmong(rows: seq<Event>)
    requires Ordered(rows)
    ensures Ordered(BankCredits(rows))
    ensures forall e :: e in BankCredits(rows) <==> e in rows && e.source == Bank && e.direction == Credit
  {
    var bank := Select(rows, FromSource(Bank));
    SelectMembers(rows, FromSource(Bank));
    SelectMembers(bank, OnSide(Credit));
    SelectOrdered(rows, FromSource(Bank));
    SelectOrdered(bank, OnSide(Credit));
    hide Select, Ordered;
  }

  /** With a sound bank side the rows picked are all the rows considered, and one row or all receipts. */
  lemma {:induction false} PickOfSoundSide(b: Batch, reference: string, consumed: set<string>)
    requires Ordered(b.events) && GatewaySettlement(b, reference) != [] && b.policy.bankTolerance == 0
    requires BankSideHolds(b.policy, FactsOf(b, reference, consumed))
    ensures var f := FactsOf(b, reference, consumed);
      && Pick(f).rows == Pick(f).candidates
      && (|Pick(f).rows| == 1 || forall e | e in Pick(f).rows :: e.direction == Credit)
  {
    var f := FactsOf(b, reference, consumed);
    ConflictMissesTheAmount(b.policy, f);
    SearchedGroups(b, Anchor(f.gateway).day, consumed, Net(f.gateway));
    if |f.search.groups| == 1 {
      assert Pick(f).rows == f.search.groups[0];
      assert f.search.groups[0] in f.search.groups;
      assert forall e | e in Pick(f).rows :: IsReceipt(b, Anchor(f.gateway).day, consumed, e);
    } else {
      assert |Pick(f).rows| == 1;
    }
  }

  /** When the bank side is sound and the case cites one credit, that credit is the receipt. */
  lemma {:induction false} TheReceipt(b: Batch, reference: string, consumed: set<string>)
    requires Ordered(b.events) && GatewaySettlement(b, reference) != [] && b.policy.bankTolerance == 0
    requires var f := FactsOf(b, reference, consumed); BankSideHolds(b.policy, f) && |BankCredits(Members(f))| == 1
    ensures var f := FactsOf(b, reference, consumed); Pick(f).rows == BankCredits(Members(f)) && AllCredits(f)
  {
    hide Members, BankCredits, GatewaySettlement, FactsOf, Receipts, BankSideHolds, Ordered;
    var f := FactsOf(b, reference, consumed);
    CreditsOfCase(b, reference, consumed);
    PickIsSound(b, reference, consumed);
    var credits := BankCredits(Members(f));
    assert credits[0] in credits;
    PickOfSoundSide(b, reference, consumed);
    hide Pick, FactsOf, Members, BankCredits, GatewaySettlement, SoundPick;
    OrderedExtensional(Pick(f).rows, credits);
  }

  // ---- the posted journal as the rule sees it -----------------------------------------------

  lemma {:induction false} OneJournal(lines: seq<Event>, journalId: string)
    requires lines != [] && forall e | e in lines :: JournalId(e.recordId) == journalId
    ensures Journals(lines) == [lines]
  {
    hide JournalId;
    var keys := JournalKeys(lines);
    assert keys[0] == journalId by { assert lines[0] in lines; }
    assert forall k | k in keys :: k == journalId;
    SortedDistinctMembers(keys);
    SortedDistinctAscending(keys);
    assert journalId in keys;
    AscendingExtensional(SortedDistinct(keys), [journalId]);
    KeepsAll(lines, InJournal(journalId));
    assert Journals(lines)[0] == lines;
  }

  lemma {:induction false} KeepsAll(s: seq<Event>, c: Criterion)
    requires forall e | e in s :: Meets(e, c)
    ensures Select(s, c) == s
  {
    hide Meets;
    if s != [] {
      KeepsAll(s[1..], c);
      assert s[0] in s;
      assert s == [s[0]] + s[1..];
    }
  }

  /** The corrected run finds exactly the posted journal for a reference that had none. */
  lemma {:induction false} PostedJournal(b: Batch, m: Batch, r: Renaming, posted: seq<Event>, reference: string, journalId: string)
    requires Mirrors(b, m, r, posted) && reference != "" && Journals(ErpLines(b, reference)) == []
    requires posted != [] && Ordered(posted)
    requires forall x | x in posted :: x.externalRef == reference && JournalId(x.recordId) == journalId
    ensures Journals(ErpLines(m, reference)) == [posted]
  {
    ErpFacts(b, reference);
    ErpFacts(m, reference);
    JournalsPartition(ErpLines(b, reference));
    RenameAllMembers(r, b.events);
    hide ErpLines, Journals, Monotone, RenameAll, Ordered, JournalId, Flatten, NewId;
    forall e | e in b.events ensures Rename(r, e) !in ErpLines(m, reference) {
      assert e !in ErpLines(b, reference);
    }
    OrderedExtensional(ErpLines(m, reference), posted);
    OneJournal(posted, journalId);
  }

  // ---- the verdict after the correction -----------------------------------------------------

  lemma SidesIgnoreEachOther(p: Policy, f: Facts, journals: seq<seq<Event>>)
    requires f.gateway != []
    ensures var g := f.(journals := journals);
      && (BankSideHolds(p, g) <==> BankSideHolds(p, f)) && (AllCredits(g) <==> AllCredits(f))
      && (AllHold(p, g) <==> BankSideHolds(p, g) && AllCredits(g) && LedgerHolds(p, g))
      && Net(g.gateway) == Net(f.gateway) && ClearingExpected(p, g) == ClearingExpected(p, f)
      && KindTotal(g, Fee) == KindTotal(f, Fee) && KindTotal(g, Tax) == KindTotal(f, Tax)
  {
    PickIgnoresJournals(f, journals);
    hide Pick, Net, SettlementRows, Total, SignedTotal, Select, Anchor, Balanced, RolesAgree;
  }

  lemma {:induction false} BankSideSurvives(r: Renaming, p: Policy, f: Facts, universe: seq<Event>)
    requires f.gateway != [] && DrawnFrom(r, f, universe)
    ensures BankSideHolds(p, RenameFacts(r, f)) <==> BankSideHolds(p, f)
    ensures AllCredits(RenameFacts(r, f)) <==> AllCredits(f)
  {
    RenamedReceipt(r, p, f, universe);
    RenamedIdentity(r, p, f, universe);
    RenamedGatewayConditions(r, p, f);
    hide SettlementUnique, ComponentsAgree, BankPresent, BankAmountAgrees, AllCredits, UtrAgrees, DatesFit, BankUnique,
         RenameFacts, DrawnFrom;
  }

  /** What the four account roles of a posted draft add up to. */
  lemma {:induction false} DraftByRole(p: Policy, events: seq<Event>)
    requires RolesHaveAccounts(p) && p.StandardAccounts() && Draftable(p, events)
    ensures var lines := DraftLines(p, events);
      && RoleSum(lines, p.bankRole) == BankCredits(events)[0].amount
      && RoleSum(lines, p.feeRole) == Total(OfThese(events, {Fee}))
      && RoleSum(lines, p.taxRole) == Total(OfThese(events, {Tax}))
      && RoleSum(lines, p.clearingRole) == DraftTotal(events)
      && SideSum(lines, Debit) == SideSum(lines, Credit)
  {
    DraftSums(p, events, p.bankRole, Debit);
    DraftSums(p, events, p.feeRole, Debit);
    DraftSums(p, events, p.taxRole, Debit);
    DraftSums(p, events, p.clearingRole, Credit);
    hide RoleSum, SideSum, DraftLines, BankCredits, OfThese, Total;
  }

  /** The posted draft satisfies the ledger side of a settlement whose bank side is sound. */
  lemma {:induction false} DraftFitsTheLedger(p: Policy, f: Facts, members: seq<Event>, posted: seq<Event>)
    requires f.gateway != [] && GatewayKinds(f.gateway) && p.ZeroTolerance() && p.StandardAccounts() && RolesHaveAccounts(p)
    requires FromGateway(members) == f.gateway && Draftable(p, members)
    requires Pick(f).rows == BankCredits(members) && BankSideHolds(p, f)
    requires f.journals == [posted] && |posted| == |DraftLines(p, members)|
    requires forall i | 0 <= i < |posted| ::
      var line := DraftLines(p, members)[i];
      posted[i].account == line.account && posted[i].amount == line.amount && posted[i].direction == line.direction
    ensures LedgerHolds(p, f)
  {
    OneReceiptAmount(p, f, members);
    ComponentsMeetDraft(p, f, members);
    PostedTotals(p, f, members, posted);
    hide Select, Total, SignedTotal, BankCredits, Draftable, BankSideHolds, Pick, Net, GatewayKinds, OfThese, DraftTotal,
         Posted, SideTotal, ClearingExpected, KindTotal, DraftLines, FromGateway;
    MeetsTargets(p, f);
  }

  lemma MeetsTargets(p: Policy, f: Facts)
    requires |f.journals| == 1 && f.journals[0] != [] && p.erpTolerance >= 0
    requires Posted(f, p.bankRole) == Net(f.gateway) && Posted(f, p.clearingRole) == ClearingExpected(p, f)
    requires Posted(f, p.feeRole) == KindTotal(f, Fee) && Posted(f, p.taxRole) == KindTotal(f, Tax)
    ensures RolesAgree(p, f)
  {
    hide Posted, Net, ClearingExpected, KindTotal;
  }

  lemma {:induction false} PostedTotals(p: Policy, f: Facts, members: seq<Event>, posted: seq<Event>)
    requires p.StandardAccounts() && RolesHaveAccounts(p) && Draftable(p, members)
    requires f.journals == [posted] && |posted| == |DraftLines(p, members)|
    requires forall i | 0 <= i < |posted| ::
      var line := DraftLines(p, members)[i];
      posted[i].account == line.account && posted[i].amount == line.amount && posted[i].direction == line.direction
    ensures posted != [] && SideTotal(f, Debit) == SideTotal(f, Credit)
    ensures Posted(f, p.bankRole) == BankCredits(members)[0].amount
    ensures Posted(f, p.clearingRole) == DraftTotal(members)
    ensures Posted(f, p.feeRole) == Total(OfThese(members, {Fee}))
    ensures Posted(f, p.taxRole) == Total(OfThese(members, {Tax}))
  {
    var lines := DraftLines(p, members);
    assert |lines| >= 1 by {
      hide RoleLine, DebitLines, Draftable;
    }
    hide Select, Total, DraftLines, BankCredits, Draftable, RoleSum, SideSum, OfThese, DraftTotal;
    PostedSums(p, lines, posted, p.bankRole, Debit);
    PostedSums(p, lines, posted, p.clearingRole, Credit);
    PostedSums(p, lines, posted, p.feeRole, Debit);
    PostedSums(p, lines, posted, p.taxRole, Credit);
    DraftByRole(p, members);
  }

  lemma {:induction false} OneReceiptAmount(p: Policy, f: Facts, members: seq<Event>)
    requires f.gateway != [] && p.ZeroTolerance() && BankSideHolds(p, f)
    requires Pick(f).rows == BankCredits(members) && |BankCredits(members)| == 1
    ensures BankCredits(members)[0].amount == Net(f.gateway) && ExpectedNet(p, f) == Net(f.gateway)
  {
    hide Pick, Net, ExpectedNet, BankCredits, SettlementUnique, UtrAgrees, DatesFit;
    assert Total([BankCredits(members)[0]]) == BankCredits(members)[0].amount;
    assert BankCredits(members) == [BankCredits(members)[0]];
  }

  lemma {:induction false} ComponentsMeetDraft(p: Policy, f: Facts, members: seq<Event>)
    requires f.gateway != [] && GatewayKinds(f.gateway) && p.StandardAccounts()
    requires FromGateway(members) == f.gateway && |BankCredits(members)| == 1
    requires BankCredits(members)[0].amount == Net(f.gateway) == ExpectedNet(p, f)
    ensures KindTotal(f, Fee) == Total(OfThese(members, {Fee})) && KindTotal(f, Tax) == Total(OfThese(members, {Tax}))
    ensures ClearingExpected(p, f) == DraftTotal(members)
  {
    NetSplitsIntoComponents(p, f.gateway);
    hide Select, Total, SignedTotal, Net, GatewayKinds;
  }
}
