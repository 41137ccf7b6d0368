/** Narration cannot influence proof: a two-run property of the kernel. */
module Narration {
  import opened Events
  import opened Selection
  import opened Context
  import opened Proposals
  import opened SettlementRule
  import opened Verdicts
  import opened Renaming
  import opened Mirror
  import opened Invariance
  import opened MirrorRun
  import opened MirrorSweep

  /** A renaming that changes narrations and nothing else. */
  ghost predicate OnlyNarrates(r: Renaming, runId: string) {
    r.ids == map[] && r.lineages == map[] && r.runId == runId
  }

  // ---- links --------------------------------------------------------------------------------

  lemma {:induction false} SameLinks(r: Renaming, s: seq<Event>, purpose: Purpose)
    requires OnlyNarrates(r, r.runId)
    ensures EvidenceFor(RenameAll(r, s), purpose) == EvidenceFor(s, purpose) && Ids(RenameAll(r, s)) == Ids(s)
  {
    forall i | 0 <= i < |s| ensures EvidenceFor(RenameAll(r, s), purpose)[i] == EvidenceFor(s, purpose)[i]
                                    && Ids(RenameAll(r, s))[i] == Ids(s)[i] {
      RenameAllAt(r, s, i);
    }
  }

  lemma {:induction false} SameCaseLinks(r: Renaming, f: Facts, universe: seq<Event>)
    requires OnlyNarrates(r, r.runId) && f.gateway != [] && DrawnFrom(r, f, universe)
    ensures var f' := RenameFacts(r, f);
      && GatewayLinks(f') == GatewayLinks(f) && BankLinks(f') == BankLinks(f) && ErpLinks(f') == ErpLinks(f)
      && CitedBank(f') == CitedBank(f) && CitedErp(f') == CitedErp(f)
  {
    RenamedPick(r, f, universe);
    RenamedFlatten(r, f.journals);
    hide RenameAll, RenameGroups, RenameResult, Pick, Flatten, EvidenceFor, DrawnFrom, IdentifierConflict;
    SameLinks(r, f.gateway, GatewayComponent);
    SameLinks(r, Pick(f).candidates, BankReceipt);
    SameLinks(r, Flatten(f.journals), ErpPosting);
  }

  // ---- what checks observe ------------------------------------------------------------------

  function SidesOf(rows: seq<Event>): set<Direction> {
    set e | e in rows :: e.direction
  }

  function UtrsOf(rows: seq<Event>): set<string> {
    set e | e in rows :: e.utr
  }

  lemma {:induction false} SameObservations(r: Renaming, rows: seq<Event>, day: int)
    ensures SidesOf(RenameAll(r, rows)) == SidesOf(rows) && UtrsOf(RenameAll(r, rows)) == UtrsOf(rows)
    ensures GivenUtrs(RenameAll(r, rows)) == GivenUtrs(rows)
    ensures Offsets(RenameAll(r, rows), day) == Offsets(rows, day)
  {
    if rows != [] {
      SameObservations(r, rows[1..], day);
      var rest := RenameAll(r, rows[1..]);
      assert RenameAll(r, rows)[1..] == rest && RenameAll(r, rows)[0] == Rename(r, rows[0]);
      hide RenameAll, NewId;
      HeadAndTail(rows);
      HeadAndTail([Rename(r, rows[0])] + rest);
      assert [Rename(r, rows[0])] + rest == RenameAll(r, rows);
    }
  }

  lemma HeadAndTail(rows: seq<Event>)
    requires rows != []
    ensures SidesOf(rows) == {rows[0].direction} + SidesOf(rows[1..])
    ensures UtrsOf(rows) == {rows[0].utr} + UtrsOf(rows[1..])
    ensures GivenUtrs(rows) == (if rows[0].utr != "" then {rows[0].utr} else {}) + GivenUtrs(rows[1..])
  {
    assert forall e :: e in rows <==> e == rows[0] || e in rows[1..];
  }

  lemma {:induction false} SameGatewayChecks(r: Renaming, p: Policy, f: Facts, universe: seq<Event>)
    requires OnlyNarrates(r, r.runId) && f.gateway != [] && DrawnFrom(r, f, universe)
    ensures GatewayChecks(p, RenameFacts(r, f)) == GatewayChecks(p, f)
  {
    hide SettlementRows, ExpectedNet, Net, SettlementUnique, ComponentsAgree, GatewayLinks, RenameAll, RenameGroups, RenameResult,
         DrawnFrom, OnlyNarrates, Anchor, ExpectedUtr, BankLinks, ErpLinks, CitedBank, CitedErp, Members, ClearingExpected, KindTotal;
    SameCaseLinks(r, f, universe);
    RenamedSums(r, p, f);
    RenamedAnchor(r, f.gateway);
    RenamedGatewayConditions(r, p, f);
    RenamedSettlementRows(r, f.gateway);
  }

  lemma {:induction false} SameReceiptChecks(r: Renaming, p: Policy, f: Facts, universe: seq<Event>)
    requires OnlyNarrates(r, r.runId) && f.gateway != [] && DrawnFrom(r, f, universe)
    ensures ReceiptChecks(p, RenameFacts(r, f)) == ReceiptChecks(p, f)
  {
    SameCaseLinks(r, f, universe);
    RenamedAnchor(r, f.gateway);
    RenamedReceipt(r, p, f, universe);
    RenamedIdentity(r, p, f, universe);
    RenamedPick(r, f, universe);
    RenamedTotal(r, Pick(f).rows);
    SameObservations(r, Pick(f).rows, 0);
    assert SidesOf(RenameAll(r, Pick(f).rows)) == SidesOf(Pick(f).rows);
    hide Pick, Net, Total, CitedBank, BankPresent, BankAmountAgrees, AllCredits, RenameAll, RenameGroups, RenameResult, DrawnFrom,
         UtrAgrees, DatesFit, Anchor, ExpectedUtr, IdentifierConflict;
  }

  lemma {:induction false} SameIdentityChecks(r: Renaming, p: Policy, f: Facts, universe: seq<Event>)
    requires OnlyNarrates(r, r.runId) && f.gateway != [] && DrawnFrom(r, f, universe)
    ensures RenameFacts(r, f).gateway != [] && IdentityChecks(p, RenameFacts(r, f)) == IdentityChecks(p, f)
  {
    SameCaseLinks(r, f, universe);
    RenamedAnchor(r, f.gateway);
    RenamedReceipt(r, p, f, universe);
    RenamedIdentity(r, p, f, universe);
    RenamedPick(r, f, universe);
    SameObservations(r, Pick(f).rows, Anchor(f.gateway).day);
    assert UtrsOf(RenameAll(r, Pick(f).rows)) == UtrsOf(Pick(f).rows);
    assert Anchor(RenameAll(r, f.gateway)).day == Anchor(f.gateway).day;
    hide Pick, Net, CitedBank, UtrAgrees, DatesFit, BankUnique, AllCredits, Offsets, RenameAll, RenameGroups, RenameResult,
         DrawnFrom, Anchor, ExpectedUtr, IdentifierConflict, BankPresent, BankAmountAgrees;
  }

  lemma {:induction false} SameErpChecks(r: Renaming, p: Policy, f: Facts, universe: seq<Event>)
    requires OnlyNarrates(r, r.runId) && f.gateway != [] && DrawnFrom(r, f, universe)
    ensures ErpChecks(RenameFacts(r, f)) == ErpChecks(f)
  {
    SameCaseLinks(r, f, universe);
    RenamedErp(r, p, f);
    RenamedPostings(r, f, p.bankRole, Debit);
    RenamedPostings(r, f, p.bankRole, Credit);
    hide Journal, SideTotal, CitedErp, Balanced, RenameAll, RenameGroups, RenameResult, DrawnFrom, TargetMet;
  }

  lemma {:induction false} SameRoleCheck(r: Renaming, p: Policy, f: Facts, universe: seq<Event>, i: nat)
    requires OnlyNarrates(r, r.runId) && f.gateway != [] && DrawnFrom(r, f, universe) && i < 4
    ensures RoleTargets(p, RenameFacts(r, f)) == RoleTargets(p, f)
    ensures RoleCheck(p, RenameFacts(r, f), RoleTargets(p, f)[i]) == RoleCheck(p, f, RoleTargets(p, f)[i])
  {
    SameCaseLinks(r, f, universe);
    RenamedSums(r, p, f);
    RenamedAnchor(r, f.gateway);
    RenamedTarget(r, p, f, i);
    RenamedPostings(r, f, RoleTargets(p, f)[i].1, Debit);
    hide Posted, Net, ClearingExpected, KindTotal, CitedErp, RoleAgrees, RenameAll, RenameGroups, RenameResult, DrawnFrom, Anchor,
         ExpectedUtr, SideTotal, ExpectedNet;
  }

  /** Every hard check reads the same after narrations change: code, expectation, observation, verdict
      and evidence. */
  lemma {:induction false} SameProofChecks(r: Renaming, p: Policy, f: Facts, universe: seq<Event>)
    requires OnlyNarrates(r, r.runId) && f.gateway != [] && DrawnFrom(r, f, universe)
    ensures RenameFacts(r, f).gateway != [] && ProofChecks(p, RenameFacts(r, f)) == ProofChecks(p, f)
  {
    SameIdentityChecks(r, p, f, universe);
    SameGatewayChecks(r, p, f, universe);
    SameReceiptChecks(r, p, f, universe);
    SameErpChecks(r, p, f, universe);
    assert RoleChecks(p, RenameFacts(r, f)) == RoleChecks(p, f) by {
      hide RoleCheck, RoleTargets, RenameFacts, DrawnFrom;
      SameRoleCheck(r, p, f, universe, 0);
      SameRoleCheck(r, p, f, universe, 1);
      SameRoleCheck(r, p, f, universe, 2);
      SameRoleCheck(r, p, f, universe, 3);
    }
    hide GatewayChecks, ReceiptChecks, IdentityChecks, ErpChecks, RoleChecks, RenameFacts, DrawnFrom;
  }

  // ---- support ------------------------------------------------------------------------------

  function OtherFeatures(features: seq<SupportFeature>): seq<SupportFeature> {
    if features == [] then []
    else (if features[0].feature == NarrationFeature then [] else [features[0]]) + OtherFeatures(features[1..])
  }

  function OtherChecks(checks: seq<Check>): seq<Check> {
    if checks == [] then []
    else (if checks[0].code == Support(NarrationFeature) then [] else [checks[0]]) + OtherChecks(checks[1..])
  }

  lemma {:induction false} OtherChecksConcat(a: seq<Check>, b: seq<Check>)
    ensures OtherChecks(a + b) == OtherChecks(a) + OtherChecks(b)
  {
    if a == [] {
      assert a + b == b;
    } else {
      assert (a + b)[1..] == a[1..] + b;
      OtherChecksConcat(a[1..], b);
    }
  }

  lemma {:induction false} KeepsOtherChecks(checks: seq<Check>)
    requires forall i | 0 <= i < |checks| :: checks[i].code != Support(NarrationFeature)
    ensures OtherChecks(checks) == checks
  {
    if checks != [] {
      KeepsOtherChecks(checks[1..]);
    }
  }

  lemma {:induction false} SupportOfOthers(p: Policy, features: seq<SupportFeature>, cited: seq<Link>)
    ensures OtherChecks(SupportChecks(p, features, cited)) == SupportChecks(p, OtherFeatures(features), cited)
  {
    hide WeightOf;
    if features != [] {
      SupportOfOthers(p, features[1..], cited);
      assert SupportChecks(p, features, cited)[1..] == SupportChecks(p, features[1..], cited);
    }
  }

  lemma {:induction false} SameWindow(r: Renaming, p: Policy, rows: seq<Event>, day: int)
    ensures WithinWindow(p, RenameAll(r, rows), day) <==> WithinWindow(p, rows, day)
  {
    if rows != [] {
      SameWindow(r, p, rows[1..], day);
      var rest := RenameAll(r, rows[1..]);
      assert forall e :: e in RenameAll(r, rows) <==> e == Rename(r, rows[0]) || e in rest;
      assert forall e :: e in rows <==> e == rows[0] || e in rows[1..];
      hide RenameAll;
      assert rows[0] in rows;
    }
  }

  lemma {:induction false} SameOtherScores(r: Renaming, p: Policy, rows: seq<Event>, expected: int, reference: string,
                                           utr: string, day: int, similarity: Similarity)
    ensures OtherFeatures(ScoreBankGroup(p, RenameAll(r, rows), expected, reference, utr, day, similarity))
         == OtherFeatures(ScoreBankGroup(p, rows, expected, reference, utr, day, similarity))
  {
    RenamedTotal(r, rows);
    SameWindow(r, p, rows, day);
    SameObservations(r, rows, day);
    assert GivenUtrs(RenameAll(r, rows)) == GivenUtrs(rows);
    ScoreOfOthers(p, rows, expected, reference, utr, day, similarity);
    ScoreOfOthers(p, RenameAll(r, rows), expected, reference, utr, day, similarity);
    hide RenameAll, Total, WithinWindow, NarrationScore, ScoreBankGroup;
  }

  lemma ScoreOfOthers(p: Policy, rows: seq<Event>, expected: int, reference: string, utr: string, day: int,
                      similarity: Similarity)
    ensures OtherFeatures(ScoreBankGroup(p, rows, expected, reference, utr, day, similarity))
         == if rows == [] then [] else
            [ SupportFeature(AmountFeature, if Total(rows) == expected then p.weights.amount else 0),
              SupportFeature(ReferenceFeature, if utr != "" && GivenUtrs(rows) == {utr} then p.weights.reference else 0),
              SupportFeature(DateFeature, if WithinWindow(p, rows, day) then p.weights.date else 0) ]
  {
    hide Total, WithinWindow, NarrationScore;
    if rows != [] {
      var all := ScoreBankGroup(p, rows, expected, reference, utr, day, similarity);
      var two := all[1..];
      var three := two[1..];
      var four := three[1..];
      assert four[1..] == [] && two[0] == all[1] && three[0] == all[2] && four[0] == all[3];
      assert OtherFeatures(four) == [];
      assert OtherFeatures(three) == [all[2]];
      assert OtherFeatures(two) == [all[1], all[2]];
    }
  }

  // ---- proposals ----------------------------------------------------------------------------

  /** A proposal without what narration may touch: the narration feature, its support check, the score. */
  function WithoutNarration(q: Proposal): Proposal {
    q.(checks := OtherChecks(q.checks), features := OtherFeatures(q.features), score := 0)
  }

  lemma NoSupportCodes()
    ensures |CODES| == 16 && forall i | 0 <= i < 16 :: !CODES[i].Support?
  {
  }

  lemma {:induction false} HardChecksAreKept(p: Policy, f: Facts)
    requires f.gateway != []
    ensures OtherChecks(ProofChecks(p, f)) == ProofChecks(p, f)
  {
    CodesLineUp(p, f);
    NoSupportCodes();
    hide ProofChecks, CODES;
    KeepsOtherChecks(ProofChecks(p, f));
  }

  lemma {:induction false} SameOtherFeatures(r: Renaming, p: Policy, f: Facts, universe: seq<Event>, similarity: Similarity)
    requires OnlyNarrates(r, r.runId) && f.gateway != [] && DrawnFrom(r, f, universe)
    ensures RenameFacts(r, f).gateway != []
    ensures OtherFeatures(Features(p, RenameFacts(r, f), similarity)) == OtherFeatures(Features(p, f, similarity))
  {
    hide ProofChecks, HardUnique, Pick, Net, Anchor, ExpectedUtr, DrawnFrom, RenameAll, RenameGroups, RenameResult, RequiredPass,
         IsAmbiguous, IsInvalid, ComponentsAgree, IdentifierConflict, ScoreBankGroup, OtherFeatures, OnlyNarrates;
    SameProofChecks(r, p, f, universe);
    SameFlags(r, p, f, universe);
    RenamedPick(r, f, universe);
    RenamedAnchor(r, f.gateway);
    assert Anchor(RenameAll(r, f.gateway)).day == Anchor(f.gateway).day;
    SameOtherScores(r, p, Pick(f).rows, Net(f.gateway), f.reference, ExpectedUtr(f.gateway), Anchor(f.gateway).day, similarity);
  }

  lemma {:induction false} ChecksWithoutNarration(p: Policy, f: Facts, similarity: Similarity)
    requires f.gateway != []
    ensures OtherChecks(ProofChecks(p, f) + SupportChecks(p, Features(p, f, similarity), CitedBank(f)))
         == ProofChecks(p, f) + SupportChecks(p, OtherFeatures(Features(p, f, similarity)), CitedBank(f))
  {
    HardChecksAreKept(p, f);
    hide ProofChecks, SupportChecks, Features, CitedBank;
    OtherChecksConcat(ProofChecks(p, f), SupportChecks(p, Features(p, f, similarity), CitedBank(f)));
    SupportOfOthers(p, Features(p, f, similarity), CitedBank(f));
  }

  /** A settlement whose rows only changed their narration gives the same proposal, narration score aside. */
  lemma {:induction false} SameSettlement(b: Batch, r: Renaming, reference: string, consumed: set<string>, similarity: Similarity)
    requires Ordered(b.events) && Monotone(r, IdSet(b.events)) && GatewaySettlement(b, reference) != []
    requires OnlyNarrates(r, r.runId)
    ensures var f := FactsOf(b, reference, consumed);
      && RenameFacts(r, f).gateway != []
      && WithoutNarration(SettlementProposal(b.runId, b.policy, RenameFacts(r, f), similarity))
         == WithoutNarration(SettlementProposal(b.runId, b.policy, f, similarity))
  {
    var f, p := FactsOf(b, reference, consumed), b.policy;
    CaseIsDrawnFrom(b, r, reference, consumed);
    RenamedMembers(b, r, reference, consumed);
    assert f.reference == reference;
    hide FactsOf, DrawnFrom, Members, Reasons, ProofChecks, SupportChecks, Features, HardUnique, IsAmbiguous, IsInvalid,
         ExpectedNet, Net, GatewaySettlement, CitedBank, GatewayLinks, BankLinks, ErpLinks, Ids, FirstOfEach, Score,
         OtherChecks, OtherFeatures, RenameAll, ComponentsAgree, Monotone, CitedErp;
    SameLinks(r, Members(f), Unconsumed);
    SameProofChecks(r, p, f, b.events);
    SameOtherFeatures(r, p, f, b.events, similarity);
    SameCaseLinks(r, f, b.events);
    SameReasons(r, p, f, b.events);
    SameFlags(r, p, f, b.events);
    RenamedSums(r, p, f);
    RenamedAnchor(r, f.gateway);
    ChecksWithoutNarration(p, f, similarity);
    ChecksWithoutNarration(p, RenameFacts(r, f), similarity);
  }
}
