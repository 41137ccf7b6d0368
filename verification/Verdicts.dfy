/** What a settlement's checks, reasons and proof level say about each other. */
module Verdicts {
  import opened Events
  import opened Selection
  import opened Proposals
  import opened SettlementRule
  import opened Gate

  /** The condition behind each of the fifteen codes. */
  predicate Holds(p: Policy, f: Facts, code: CheckCode)
    requires f.gateway != [] && code in FIFTEEN
  {
    match code
    case GatewaySettlementUnique => SettlementUnique(f)
    case SettlementComponentInvariant => ComponentsAgree(p, f)
    case BankReceiptPresent => BankPresent(f)
    case BankReceiptAmount => BankAmountAgrees(p, f)
    case BankReceiptDirection => AllCredits(f)
    case BankReceiptReference => UtrAgrees(f)
    case BankReceiptDate => DatesFit(p, f)
    case BankReceiptUnique => BankUnique(f)
    case ErpJournalPresent => ErpPresent(f)
    case ErpJournalUnique => ErpUnique(f)
    case ErpJournalBalanced => Balanced(f)
    case ErpBankPosting => TargetMet(p, f, 0)
    case ErpClearingPosting => TargetMet(p, f, 1)
    case ErpFeePosting => TargetMet(p, f, 2)
    case _ => TargetMet(p, f, 3)
  }

  const CODES: seq<CheckCode> := [
    GatewaySettlementUnique, SettlementComponentInvariant, SettlementComponentVariance,
    BankReceiptPresent, BankReceiptAmount, BankReceiptDirection,
    BankReceiptReference, BankReceiptDate, BankReceiptUnique,
    ErpJournalPresent, ErpJournalUnique, ErpJournalBalanced,
    ErpBankPosting, ErpClearingPosting, ErpFeePosting, ErpTaxPosting
  ]

  /** A check of the given code reports its condition: passed exactly when it holds (the variance is
      not required), citing evidence, within a tolerance of the policy. */
  ghost predicate Reports(p: Policy, f: Facts, c: Check, code: CheckCode)
    requires f.gateway != []
  {
    && c.code == code
    && (c.required <==> code in FIFTEEN)
    && (code in FIFTEEN ==> (c.passed <==> Holds(p, f, code)))
    && (code == SettlementComponentVariance ==> (c.passed <==> ComponentsAgree(p, f)))
    && c.links != []
    && (c.tolerance.Some? ==>
         c.tolerance.value == p.componentTolerance || c.tolerance.value == p.bankTolerance || c.tolerance.value == p.erpTolerance)
  }

  lemma HardCode(i: nat)
    requires i < 16 && i != 2
    ensures |CODES| == 16 && CODES[i] in FIFTEEN && CODES[i] != SettlementComponentVariance
  {
  }

  predicate KnownTolerance(p: Policy, tolerance: Option<int>) {
    tolerance.Some? ==> tolerance.value == p.componentTolerance || tolerance.value == p.bankTolerance || tolerance.value == p.erpTolerance
  }

  /** A required check with one of the fifteen codes reports its condition when it passes exactly then. */
  lemma HardReports(p: Policy, f: Facts, c: Check, code: CheckCode)
    requires f.gateway != [] && code in FIFTEEN && code != SettlementComponentVariance
    requires c.code == code && c.required && (c.passed <==> Holds(p, f, code)) && c.links != [] && KnownTolerance(p, c.tolerance)
    ensures Reports(p, f, c, code)
  {
    hide Holds, FIFTEEN;
  }

  lemma VarianceReports(p: Policy, f: Facts, c: Check)
    requires f.gateway != [] && c.code == SettlementComponentVariance && !c.required
    requires (c.passed <==> ComponentsAgree(p, f)) && c.links != [] && KnownTolerance(p, c.tolerance)
    requires SettlementComponentVariance !in FIFTEEN
    ensures Reports(p, f, c, SettlementComponentVariance)
  {
    hide Holds, FIFTEEN, ComponentsAgree;
  }

  lemma {:induction false} GatewayChecksReport(p: Policy, f: Facts, i: nat)
    requires f.gateway != [] && i < 3
    ensures Reports(p, f, GatewayChecks(p, f)[i], CODES[i])
  {
    if i != 2 {
      HardCode(i);
    }
    assert SettlementComponentVariance !in FIFTEEN;
    hide Select, SignedTotal, SettlementRows, SettlementUnique, ComponentsAgree, ExpectedNet, Net, FIFTEEN, Reports;
    var c := GatewayChecks(p, f)[i];
    if i == 0 {
      assert CODES[0] == GatewaySettlementUnique;
      HardReports(p, f, c, CODES[i]);
    } else if i == 1 {
      assert CODES[1] == SettlementComponentInvariant;
      HardReports(p, f, c, CODES[i]);
    } else {
      VarianceReports(p, f, c);
    }
  }

  lemma {:induction false} ReceiptChecksReport(p: Policy, f: Facts, i: nat)
    requires f.gateway != [] && 3 <= i < 6
    ensures Reports(p, f, ReceiptChecks(p, f)[i - 3], CODES[i])
  {
    LinksAreCited(f);
    HardCode(i);
    hide Pick, Total, SettlementRows, CitedBank, BankPresent, BankAmountAgrees, AllCredits, Net, FIFTEEN, Reports;
    var c := ReceiptChecks(p, f)[i - 3];
    if i == 3 {
      HardReports(p, f, c, CODES[i]);
    } else if i == 4 {
      HardReports(p, f, c, CODES[i]);
    } else {
      HardReports(p, f, c, CODES[i]);
    }
  }

  lemma {:induction false} IdentityChecksReport(p: Policy, f: Facts, i: nat)
    requires f.gateway != [] && 6 <= i < 9
    ensures Reports(p, f, IdentityChecks(p, f)[i - 6], CODES[i])
  {
    LinksAreCited(f);
    HardCode(i);
    hide Pick, Total, SettlementRows, Offsets, CitedBank, BankPresent, BankAmountAgrees, AllCredits, UtrAgrees, DatesFit,
         BankUnique, Net, ExpectedUtr, Anchor, FIFTEEN, Reports;
    var c := IdentityChecks(p, f)[i - 6];
    if i == 6 {
      HardReports(p, f, c, CODES[i]);
    } else if i == 7 {
      HardReports(p, f, c, CODES[i]);
    } else {
      HardReports(p, f, c, CODES[i]);
    }
  }

  lemma {:induction false} ErpChecksReport(p: Policy, f: Facts, i: nat)
    requires f.gateway != [] && 9 <= i < 12
    ensures Reports(p, f, ErpChecks(f)[i - 9], CODES[i])
  {
    LinksAreCited(f);
    HardCode(i);
    hide Select, Total, CitedErp, SideTotal, Journal, ErpPresent, ErpUnique, Balanced, FIFTEEN, Reports;
    var c := ErpChecks(f)[i - 9];
    if i == 9 {
      HardReports(p, f, c, CODES[i]);
    } else if i == 10 {
      HardReports(p, f, c, CODES[i]);
    } else {
      HardReports(p, f, c, CODES[i]);
    }
  }

  lemma RoleCodes(p: Policy, f: Facts, k: nat)
    requires f.gateway != [] && k < 4
    ensures RoleTargets(p, f)[k].0 == CODES[12 + k] && CODES[12 + k] in FIFTEEN
    ensures CODES[12 + k] != SettlementComponentVariance
    ensures Holds(p, f, CODES[12 + k]) <==> TargetMet(p, f, k)
    ensures RoleChecks(p, f)[k] == RoleCheck(p, f, RoleTargets(p, f)[k])
  {
    hide TargetMet, RoleCheck, Net, ClearingExpected, KindTotal;
  }

  lemma {:induction false} RoleChecksReport(p: Policy, f: Facts, i: nat)
    requires f.gateway != [] && 12 <= i < 16
    ensures |RoleChecks(p, f)| == 4 && |CODES| == 16 && Reports(p, f, RoleChecks(p, f)[i - 12], CODES[i])
  {
    assert |RoleChecks(p, f)| == 4 && |CODES| == 16;
    RoleCodes(p, f, i - 12);
    hide CitedErp, RoleAgrees, Posted, RoleTargets, RoleChecks, Holds, FIFTEEN, Reports;
    LinksAreCited(f);
    HardReports(p, f, RoleChecks(p, f)[i - 12], CODES[i]);
  }

  /** Where each of the sixteen proof checks comes from. */
  lemma PartsOfProofChecks(p: Policy, f: Facts, i: nat)
    requires f.gateway != [] && i < 16
    ensures |ProofChecks(p, f)| == 16
    ensures ProofChecks(p, f)[i]
         == if i < 3 then GatewayChecks(p, f)[i]
            else if i < 6 then ReceiptChecks(p, f)[i - 3]
            else if i < 9 then IdentityChecks(p, f)[i - 6]
            else if i < 12 then ErpChecks(f)[i - 9]
            else RoleChecks(p, f)[i - 12]
  {
    assert |GatewayChecks(p, f)| == |ReceiptChecks(p, f)| == |IdentityChecks(p, f)| == |ErpChecks(f)| == 3;
    assert |RoleChecks(p, f)| == 4;
    hide GatewayChecks, ReceiptChecks, IdentityChecks, ErpChecks, RoleChecks;
  }

  /** The proof checks come in a fixed order, each reporting its condition. */
  lemma {:induction false} ProofChecksReport(p: Policy, f: Facts, i: nat)
    requires f.gateway != [] && i < 16
    ensures |ProofChecks(p, f)| == 16 && Reports(p, f, ProofChecks(p, f)[i], CODES[i])
  {
    assert |CODES| == 16;
    hide GatewayChecks, ReceiptChecks, IdentityChecks, ErpChecks, RoleChecks, Reports, FIFTEEN, ProofChecks, CODES;
    PartsOfProofChecks(p, f, i);
    if i < 3 {
      GatewayChecksReport(p, f, i);
    } else if i < 6 {
      ReceiptChecksReport(p, f, i);
    } else if i < 9 {
      IdentityChecksReport(p, f, i);
    } else if i < 12 {
      ErpChecksReport(p, f, i);
    } else {
      RoleChecksReport(p, f, i);
    }
  }

  lemma LinksAreCited(f: Facts)
    requires f.gateway != []
    ensures GatewayLinks(f) != [] && CitedBank(f) != [] && CitedErp(f) != []
  {
  }

  lemma {:induction false} VerdictConcat(a: seq<Check>, b: seq<Check>, code: CheckCode)
    ensures Verdict(a + b, code) == if Verdict(b, code).Some? then Verdict(b, code) else Verdict(a, code)
  {
    if b == [] {
      assert a + b == a;
    } else {
      assert (a + b)[..|a + b| - 1] == a + b[..|b| - 1];
      VerdictConcat(a, b[..|b| - 1], code);
    }
  }

  lemma {:induction false} SupportIsSilent(p: Policy, features: seq<SupportFeature>, cited: seq<Link>, code: CheckCode)
    requires code in FIFTEEN
    ensures Verdict(SupportChecks(p, features, cited), code) == None
  {
    if features != [] {
      var n := |features| - 1;
      SupportIsSilent(p, features[..n], cited, code);
      assert SupportChecks(p, features, cited)[..n] == SupportChecks(p, features[..n], cited);
    }
  }

  function Position(code: CheckCode): (i: nat)
    requires code in FIFTEEN
    ensures i < 16 && CODES[i] == code
  {
    match code
    case GatewaySettlementUnique => 0
    case SettlementComponentInvariant => 1
    case BankReceiptPresent => 3
    case BankReceiptAmount => 4
    case BankReceiptDirection => 5
    case BankReceiptReference => 6
    case BankReceiptDate => 7
    case BankReceiptUnique => 8
    case ErpJournalPresent => 9
    case ErpJournalUnique => 10
    case ErpJournalBalanced => 11
    case ErpBankPosting => 12
    case ErpClearingPosting => 13
    case ErpFeePosting => 14
    case _ => 15
  }

  lemma CodesAreDistinct()
    ensures |CODES| == 16 && forall i, j | 0 <= i < j < 16 :: CODES[i] != CODES[j]
  {
  }

  lemma {:induction false} CodesLineUp(p: Policy, f: Facts)
    requires f.gateway != []
    ensures |ProofChecks(p, f)| == 16 && DistinctCodes(ProofChecks(p, f))
    ensures forall i | 0 <= i < 16 :: ProofChecks(p, f)[i].code == CODES[i]
  {
    hide ProofChecks, Reports;
    ProofChecksReport(p, f, 0);
    forall i: nat | i < 16 ensures ProofChecks(p, f)[i].code == CODES[i] {
      ProofChecksReport(p, f, i);
      ReportedCode(p, f, ProofChecks(p, f)[i], CODES[i]);
    }
    InheritDistinctCodes(ProofChecks(p, f), CODES);
  }

  lemma {:induction false} InheritDistinctCodes(checks: seq<Check>, codes: seq<CheckCode>)
    requires codes == CODES && |checks| == 16 && forall i | 0 <= i < 16 :: checks[i].code == codes[i]
    ensures DistinctCodes(checks)
  {
    CodesAreDistinct();
    assert forall i, j | 0 <= i < j < 16 :: codes[i] != codes[j];
  }

  lemma ReportedCode(p: Policy, f: Facts, c: Check, code: CheckCode)
    requires f.gateway != [] && Reports(p, f, c, code)
    ensures c.code == code
  {
    hide Holds, FIFTEEN;
  }

  lemma {:induction false} HardVerdict(p: Policy, f: Facts, code: CheckCode)
    requires f.gateway != [] && code in FIFTEEN
    ensures Verdict(ProofChecks(p, f), code) == Some(Holds(p, f, code))
  {
    hide ProofChecks, Holds, Verdict, Position, CODES;
    CodesLineUp(p, f);
    ProofChecksReport(p, f, Position(code));
    VerdictOfCheck(ProofChecks(p, f), Position(code));
  }

  /** Fifteen conditions hold, written out. */
  ghost predicate AllHold(p: Policy, f: Facts)
    requires f.gateway != []
  {
    AllButDirection(p, f) && AllCredits(f)
  }

  ghost predicate AllButDirection(p: Policy, f: Facts)
    requires f.gateway != []
  {
    && SettlementUnique(f) && ComponentsAgree(p, f)
    && BankPresent(f) && BankAmountAgrees(p, f) && UtrAgrees(f) && DatesFit(p, f) && BankUnique(f)
    && ErpPresent(f) && ErpUnique(f) && Balanced(f) && RolesAgree(p, f)
  }

  lemma {:induction false} AllHoldMeansEachHolds(p: Policy, f: Facts)
    requires f.gateway != []
    ensures AllHold(p, f) <==> forall code | code in FIFTEEN :: Holds(p, f, code)
  {
    hide SettlementUnique, ComponentsAgree, BankPresent, BankAmountAgrees, AllCredits, UtrAgrees, DatesFit, BankUnique,
         ErpPresent, ErpUnique, Balanced, TargetMet, FIFTEEN, Holds;
    if AllHold(p, f) {
      forall code | code in FIFTEEN ensures Holds(p, f, code) {
        EachHolds(p, f, code);
      }
    }
    if forall code | code in FIFTEEN :: Holds(p, f, code) {
      BankSideFollows(p, f);
      LedgerSideFollows(p, f);
    }
  }

  lemma BankSideFollows(p: Policy, f: Facts)
    requires f.gateway != [] && forall code | code in FIFTEEN :: Holds(p, f, code)
    ensures SettlementUnique(f) && ComponentsAgree(p, f) && BankPresent(f) && BankAmountAgrees(p, f) && AllCredits(f) && UtrAgrees(f)
         && DatesFit(p, f) && BankUnique(f)
  {
    hide SettlementUnique, ComponentsAgree, BankPresent, BankAmountAgrees, AllCredits, UtrAgrees, DatesFit, BankUnique,
         ErpPresent, ErpUnique, Balanced, TargetMet;
    assert Holds(p, f, GatewaySettlementUnique) && Holds(p, f, SettlementComponentInvariant);
    assert Holds(p, f, BankReceiptPresent) && Holds(p, f, BankReceiptAmount) && Holds(p, f, BankReceiptDirection);
    assert Holds(p, f, BankReceiptReference) && Holds(p, f, BankReceiptDate) && Holds(p, f, BankReceiptUnique);
  }

  lemma LedgerSideFollows(p: Policy, f: Facts)
    requires f.gateway != [] && forall code | code in FIFTEEN :: Holds(p, f, code)
    ensures ErpPresent(f) && ErpUnique(f) && Balanced(f) && TargetMet(p, f, 0) && TargetMet(p, f, 1) && TargetMet(p, f, 2) && TargetMet(p, f, 3)
  {
    hide SettlementUnique, ComponentsAgree, BankPresent, BankAmountAgrees, AllCredits, UtrAgrees, DatesFit, BankUnique,
         ErpPresent, ErpUnique, Balanced, TargetMet;
    assert Holds(p, f, ErpJournalPresent) && Holds(p, f, ErpJournalUnique) && Holds(p, f, ErpJournalBalanced);
    assert Holds(p, f, ErpBankPosting) && Holds(p, f, ErpClearingPosting);
    assert Holds(p, f, ErpFeePosting) && Holds(p, f, ErpTaxPosting);
  }

  lemma EachHolds(p: Policy, f: Facts, code: CheckCode)
    requires f.gateway != [] && AllHold(p, f) && code in FIFTEEN
    ensures Holds(p, f, code)
  {
    hide SettlementUnique, ComponentsAgree, BankPresent, BankAmountAgrees, AllCredits, UtrAgrees, DatesFit, BankUnique,
         ErpPresent, ErpUnique, Balanced, TargetMet;
  }

  /** Looking the required checks up in a settlement proposal finds the fifteen conditions. */
  lemma {:induction false} RequiredPassMeansAllHold(runId: string, p: Policy, f: Facts, similarity: Similarity)
    requires f.gateway != []
    ensures RequiredPass(FIFTEEN, SettlementProposal(runId, p, f, similarity).checks) <==> AllHold(p, f)
    ensures RequiredPass(FIFTEEN, ProofChecks(p, f)) <==> AllHold(p, f)
  {
    var features := Features(p, f, similarity);
    var proof, support := ProofChecks(p, f), SupportChecks(p, features, CitedBank(f));
    assert SettlementProposal(runId, p, f, similarity).checks == proof + support;
    AllHoldMeansEachHolds(p, f);
    hide SettlementProposal, Features, ProofChecks, SupportChecks, Holds, AllHold, CitedBank;
    forall code | code in FIFTEEN
      ensures Verdict(proof + support, code) == Verdict(proof, code) == Some(Holds(p, f, code))
    {
      HardVerdict(p, f, code);
      SupportIsSilent(p, features, CitedBank(f), code);
      VerdictConcat(proof, support, code);
    }
  }

  // ---- reasons ------------------------------------------------------------------------------

  /** Explanations are complete: with no bank tolerance, a settlement has no reason exactly when
      every condition other than the receipt direction holds. */
  lemma {:induction false} ExplanationsAreComplete(p: Policy, f: Facts)
    requires f.gateway != [] && p.bankTolerance == 0
    requires forall g | g in f.journals :: g != []
    ensures Reasons(p, f) == [] <==> AllButDirection(p, f)
  {
    WithoutRepeatsMembers(RawReasons(p, f));
    assert Reasons(p, f) == [] <==> RawReasons(p, f) == [] by {
      hide RawReasons;
      assert RawReasons(p, f) != [] ==> RawReasons(p, f)[0] in Reasons(p, f);
    }
    ConflictMissesTheAmount(p, f);
    hide Select, Total, SignedTotal, SettlementRows, SelectBankGroup, SideTotal, FirstTargetsMet, ComponentsAgree, UtrAgrees,
         Anchor, Pick, IdentifierConflict, BankAmountAgrees;
    if |f.journals| == 1 {
      assert f.journals[0] in f.journals;
    }
  }

  lemma ConflictMissesTheAmount(p: Policy, f: Facts)
    requires p.bankTolerance == 0
    ensures IdentifierConflict(f) ==> !BankAmountAgrees(p, f)
  {
  }
}
