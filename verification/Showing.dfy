/** What a settlement's proposal shows of its rows: the bank rows it picks, the values its checks compare, and its
    support scores. */
module Showing {
  import opened Events
  import opened Selection
  import opened Grouping
  import opened Context
  import opened Proposals
  import opened SettlementRule
  import opened CaseFacts
  import opened Verdicts
  import opened Money
  import opened Meaning

  // ---- the bank rows ------------------------------------------------------------------------

  /** The rows of several groups, each once, in id order. */
  ghost predicate AllOf(groups: seq<Group>, rows: seq<Event>) {
    Ordered(rows) && forall e :: e in rows <==> exists g :: g in groups && e in g
  }

  /** Which bank rows a settlement picks: all rows with its reference when they conflict; the one group that the search
      found; the first of several, which is ambiguous; failing that a lone row with the reference, or the first of
      several, which is ambiguous again; or none. */
  lemma {:induction false} PickTable(b: Batch, reference: string, consumed: set<string>)
    requires Ordered(b.events) && GatewaySettlement(b, reference) != []
    ensures var f := FactsOf(b, reference, consumed);
      var pick, groups, anchored := Pick(f), f.search.groups, f.anchored;
      && pick.bounded == f.search.boundedOut
      && if RowsConflict(f) then pick.rows == pick.candidates == f.exact && !pick.ambiguous
         else if |groups| == 1 then pick.rows == pick.candidates == groups[0] && !pick.ambiguous
         else if |groups| > 1 then pick.rows == groups[0] && AllOf(groups, pick.candidates) && pick.ambiguous
         else if |anchored| == 1 then pick.rows == pick.candidates == anchored && !pick.ambiguous
         else if |anchored| > 1 then pick.rows == [anchored[0]] && pick.candidates == anchored && pick.ambiguous
         else pick.rows == pick.candidates == [] && !pick.ambiguous
  {
    var f := FactsOf(b, reference, consumed);
    ConflictExactly(f);
    SearchedGroups(b, Anchor(f.gateway).day, consumed, Net(f.gateway));
    assert f.search == Search(Receipts(b, Anchor(f.gateway).day, consumed), Net(f.gateway), b.policy.grouping);
    hide Search, Receipts, UtrRows, GatewaySettlement, Journals, ErpLines, Anchor, Net, ExpectedUtr, Considered, FactsOf, IdentifierConflict,
         RowsConflict;
    forall g, e | g in f.search.groups && e in g ensures e in b.events {
      assert IsReceipt(b, Anchor(f.gateway).day, consumed, e);
    }
    hide Ordered, IsReceipt;
    ConsideredMembers(f.search.groups, b.events);
  }

  // ---- what the checks compare --------------------------------------------------------------

  /** The expected and the observed value of each check. */
  ghost function Shown(p: Policy, f: Facts, code: CheckCode): (Scalar, Scalar)
    requires f.gateway != []
  {
    var bank, amount, net := Pick(f).rows, ReportedAmount(f.gateway), NetAmount(p.signs, f.gateway);
    match code
    case GatewaySettlementUnique => (Number(1), Number(SettlementCount(f.gateway)))
    case SettlementComponentInvariant => (Number(net), Number(amount))
    case SettlementComponentVariance => (Number(0), Number(amount - net))
    case BankReceiptPresent => (Truth(true), Truth(bank != []))
    case BankReceiptAmount => (Number(amount), Number(Total(bank)))
    case BankReceiptDirection => (Sides({Credit}), Sides(set e | e in bank :: e.direction))
    case BankReceiptReference => (Text(ReportedReference(f.gateway)), References(set e | e in bank :: e.utr))
    case BankReceiptDate => (Window(p.minDays, p.maxDays), Days(DaysAfter(bank, ReportedDay(f.gateway))))
    case BankReceiptUnique => (Truth(true), Truth(bank != [] && !Pick(f).ambiguous && !Pick(f).bounded))
    case _ => ShownOfLedger(p, f, code)
  }

  ghost function ShownOfLedger(p: Policy, f: Facts, code: CheckCode): (Scalar, Scalar) {
    var journal := OnlyJournal(f.journals);
    match code
    case ErpJournalPresent => (Truth(true), Truth(f.journals != []))
    case ErpJournalUnique => (Number(1), Number(|f.journals|))
    case ErpJournalBalanced => (Number(SideAmount(journal, Debit)), Number(SideAmount(journal, Credit)))
    case ErpBankPosting => (Number(ReportedAmount(f.gateway)), Number(RoleAmount(journal, p.bankRole)))
    case ErpClearingPosting => (Number(ClearingAmount(p.signs, f.gateway)), Number(RoleAmount(journal, p.clearingRole)))
    case ErpFeePosting => (Number(KindAmount(f.gateway, Fee)), Number(RoleAmount(journal, p.feeRole)))
    case _ => (Number(KindAmount(f.gateway, Tax)), Number(RoleAmount(journal, p.taxRole)))
  }

  /** How many days after the given one the rows with a value date were valued. */
  function DaysAfter(rows: seq<Event>, day: int): seq<int> {
    if rows == [] then []
    else if rows[0].valueDate.None? then DaysAfter(rows[1..], day)
    else [rows[0].valueDate.value - day] + DaysAfter(rows[1..], day)
  }

  lemma {:induction false} OffsetsAreDays(rows: seq<Event>, day: int)
    ensures Offsets(rows, day) == DaysAfter(rows, day)
  {
    if rows != [] {
      OffsetsAreDays(rows[1..], day);
    }
  }

  predicate Shows(c: Check, shown: (Scalar, Scalar)) {
    c.expected == shown.0 && c.observed == shown.1
  }

  lemma {:induction false} GatewayChecksShow(p: Policy, f: Facts, i: nat)
    requires f.gateway != [] && GatewayKinds(f.gateway) && i < 3
    ensures Shows(GatewayChecks(p, f)[i], Shown(p, f, CODES[i]))
  {
    hide SettlementRows, SettlementCount, ExpectedNet, NetAmount, Net, ReportedAmount, GatewayKinds, ComponentsAgree, GatewayLinks, FirstSettlement,
         ClearingAmount, KindAmount, ClearingExpected, KindTotal, ExpectedUtr, Anchor, ReportedReference, ReportedDay, Pick, Total, ShownOfLedger;
    SettlementRowsShape(f.gateway);
    ReportedExactly(f.gateway);
    ComponentsByKind(p, f);
    if i == 0 {
    } else if i == 1 {
    } else {
    }
  }

  lemma {:induction false} ReceiptChecksShow(p: Policy, f: Facts, i: nat)
    requires f.gateway != [] && 3 <= i < 6
    ensures Shows(ReceiptChecks(p, f)[i - 3], Shown(p, f, CODES[i]))
  {
    hide Pick, Total, Net, ReportedAmount, CitedBank, BankAmountAgrees, AllCredits, NetAmount, ExpectedUtr, Anchor, ReportedReference, ReportedDay,
         SettlementCount;
    ReportedExactly(f.gateway);
    if i == 3 {
    } else if i == 4 {
    } else {
    }
  }

  lemma {:induction false} IdentityChecksShow(p: Policy, f: Facts, i: nat)
    requires f.gateway != [] && 6 <= i < 9
    ensures Shows(IdentityChecks(p, f)[i - 6], Shown(p, f, CODES[i]))
  {
    hide Pick, Total, Net, ReportedAmount, CitedBank, UtrAgrees, DatesFit, NetAmount, Offsets, DaysAfter, ExpectedUtr, Anchor, ReportedReference,
         ReportedDay, SettlementCount;
    ReportedExactly(f.gateway);
    OffsetsAreDays(Pick(f).rows, Anchor(f.gateway).day);
    if i == 6 {
    } else if i == 7 {
    } else {
    }
  }

  lemma {:induction false} PostedIs(p: Policy, f: Facts, role: Role)
    ensures Posted(f, role) == RoleAmount(OnlyJournal(f.journals), role)
  {
    AmountsOfLines(p, Journal(f), Debit, role);
    hide Select, Total, RoleAmount;
  }

  lemma {:induction false} SidesAre(p: Policy, f: Facts)
    ensures SideTotal(f, Debit) == SideAmount(OnlyJournal(f.journals), Debit)
    ensures SideTotal(f, Credit) == SideAmount(OnlyJournal(f.journals), Credit)
  {
    AmountsOfLines(p, Journal(f), Debit, p.bankRole);
    AmountsOfLines(p, Journal(f), Credit, p.bankRole);
    hide Select, Total, SideAmount;
  }

  lemma {:induction false} ErpChecksShow(p: Policy, f: Facts, i: nat)
    requires f.gateway != [] && 9 <= i < 12
    ensures Shows(ErpChecks(f)[i - 9], ShownOfLedger(p, f, CODES[i]))
  {
    hide SideTotal, SideAmount, CitedErp, Balanced, OnlyJournal;
    SidesAre(p, f);
    if i == 9 {
    } else if i == 10 {
    } else {
    }
  }

  lemma {:induction false} RoleChecksShow(p: Policy, f: Facts, i: nat)
    requires f.gateway != [] && GatewayKinds(f.gateway) && 12 <= i < 16
    ensures Shows(RoleChecks(p, f)[i - 12], ShownOfLedger(p, f, CODES[i]))
  {
    hide Posted, RoleAmount, Net, ReportedAmount, CitedErp, RoleAgrees, ClearingExpected, ClearingAmount, KindTotal, KindAmount, GatewayKinds,
         ExpectedNet, NetAmount, ExpectedUtr, Anchor, ReportedReference, ReportedDay, OnlyJournal;
    ReportedExactly(f.gateway);
    ComponentsByKind(p, f);
    PostedIs(p, f, p.bankRole);
    PostedIs(p, f, p.clearingRole);
    PostedIs(p, f, p.feeRole);
    PostedIs(p, f, p.taxRole);
    if i == 12 {
    } else if i == 13 {
    } else if i == 14 {
    } else {
    }
  }

  /** Each of the sixteen proof checks shows the figures of the rows that it compares. */
  lemma {:induction false} ChecksShow(p: Policy, f: Facts, i: nat)
    requires f.gateway != [] && GatewayKinds(f.gateway) && i < 16
    ensures |ProofChecks(p, f)| == 16 && |CODES| == 16 && Shows(ProofChecks(p, f)[i], Shown(p, f, CODES[i]))
  {
    hide Shows, Shown, ShownOfLedger, GatewayKinds, ProofChecks;
    PartsOfProofChecks(p, f, i);
    assert |CODES| == 16;
    hide CODES;
    if i < 3 {
      GatewayChecksShow(p, f, i);
    } else if i < 6 {
      ReceiptChecksShow(p, f, i);
    } else if i < 9 {
      IdentityChecksShow(p, f, i);
    } else {
      LedgerIsShown(p, f, i);
      if i < 12 {
        ErpChecksShow(p, f, i);
      } else {
        RoleChecksShow(p, f, i);
      }
    }
  }

  lemma LedgerIsShown(p: Policy, f: Facts, i: nat)
    requires f.gateway != [] && 9 <= i < 16
    ensures Shown(p, f, CODES[i]) == ShownOfLedger(p, f, CODES[i])
  {
    hide ShownOfLedger, Pick, NetAmount, ReportedAmount;
  }

  // ---- what the checks cite -----------------------------------------------------------------

  /** The tolerance of the policy that a check allows, if any. */
  function ToleranceOf(p: Policy, code: CheckCode): Option<int> {
    match code
    case SettlementComponentInvariant => Some(p.componentTolerance)
    case SettlementComponentVariance => Some(p.componentTolerance)
    case BankReceiptAmount => Some(p.bankTolerance)
    case ErpBankPosting => Some(p.erpTolerance)
    case ErpClearingPosting => Some(p.erpTolerance)
    case ErpFeePosting => Some(p.erpTolerance)
    case ErpTaxPosting => Some(p.erpTolerance)
    case _ => None
  }

  /** The rows that a check cites: those of its own side, or the gateway rows when there are none. */
  ghost function CitedOf(f: Facts, i: nat): seq<Link> {
    if 3 <= i < 9 && Pick(f).candidates != [] then EvidenceFor(Pick(f).candidates, BankReceipt)
    else if 9 <= i && Flatten(f.journals) != [] then EvidenceFor(Flatten(f.journals), ErpPosting)
    else EvidenceFor(f.gateway, GatewayComponent)
  }

  lemma CitedSides(f: Facts)
    ensures CitedBank(f) == if Pick(f).candidates != [] then EvidenceFor(Pick(f).candidates, BankReceipt) else EvidenceFor(f.gateway, GatewayComponent)
    ensures CitedErp(f) == if Flatten(f.journals) != [] then EvidenceFor(Flatten(f.journals), ErpPosting) else EvidenceFor(f.gateway, GatewayComponent)
  {
    hide Pick, Flatten;
  }

  /** Each proof check cites the rows of its side and allows the tolerance of its kind. */
  lemma {:induction false} ChecksCite(p: Policy, f: Facts, i: nat)
    requires f.gateway != [] && i < 16
    ensures |ProofChecks(p, f)| == 16 && |CODES| == 16
    ensures ProofChecks(p, f)[i].links == CitedOf(f, i) && ProofChecks(p, f)[i].tolerance == ToleranceOf(p, CODES[i])
  {
    hide ProofChecks, CitedBank, CitedErp, Pick, Flatten, SettlementRows, ExpectedNet, Net, Total, Posted, SideTotal, Offsets, EvidenceFor, ExpectedUtr,
         Anchor, SettlementUnique, ComponentsAgree, BankAmountAgrees, AllCredits, UtrAgrees, DatesFit, BankUnique, Balanced, RoleAgrees, ErpUnique,
         ClearingExpected, KindTotal;
    PartsOfProofChecks(p, f, i);
    CitedSides(f);
    if i < 3 {
      GatewayChecksCite(p, f, i);
    } else if i < 9 {
      BankChecksCite(p, f, i);
    } else {
      ErpChecksCite(p, f, i);
    }
  }

  lemma GatewayChecksCite(p: Policy, f: Facts, i: nat)
    requires i < 3
    ensures |CODES| == 16 && GatewayChecks(p, f)[i].links == GatewayLinks(f) && GatewayChecks(p, f)[i].tolerance == ToleranceOf(p, CODES[i])
  {
    hide SettlementRows, ExpectedNet, Net, SettlementUnique, ComponentsAgree, GatewayLinks;
  }

  lemma BankChecksCite(p: Policy, f: Facts, i: nat)
    requires f.gateway != [] && 3 <= i < 9
    ensures |CODES| == 16
    ensures var c := if i < 6 then ReceiptChecks(p, f)[i - 3] else IdentityChecks(p, f)[i - 6];
      c.links == CitedBank(f) && c.tolerance == ToleranceOf(p, CODES[i])
  {
    hide Pick, Net, Total, Offsets, ExpectedUtr, Anchor, BankAmountAgrees, AllCredits, UtrAgrees, DatesFit, BankUnique, CitedBank;
  }

  lemma ErpChecksCite(p: Policy, f: Facts, i: nat)
    requires f.gateway != [] && 9 <= i < 16
    ensures |CODES| == 16 && |RoleChecks(p, f)| == 4
    ensures var c := if i < 12 then ErpChecks(f)[i - 9] else RoleChecks(p, f)[i - 12];
      c.links == CitedErp(f) && c.tolerance == ToleranceOf(p, CODES[i])
  {
    hide SideTotal, Balanced, Posted, RoleAgrees, Net, ClearingExpected, KindTotal, CitedErp, ErpUnique;
  }

  // ---- support scores -----------------------------------------------------------------------

  /** The whole number nearest to `x`, the even one of two. */
  predicate IsNearest(x: real, n: int) {
    -0.5 <= x - n as real <= 0.5 && (x - n as real == 0.5 || x - n as real == -0.5 ==> n % 2 == 0)
  }

  lemma RoundsToNearest(x: real)
    ensures IsNearest(x, RoundHalfEven(x))
  {
  }

  function IfMet(condition: bool, weight: int): int {
    if condition then weight else 0
  }

  /** Some row carries the reference, and none another. */
  ghost predicate OnlyReference(rows: seq<Event>, utr: string) {
    (exists e :: e in rows && e.utr == utr) && forall e | e in rows :: e.utr in {"", utr}
  }

  /** Every row is valued, or else dated, within so many days before or after. */
  predicate AllDated(rows: seq<Event>, day: int, days: int) {
    forall e | e in rows :: Near(DateOf(e), day, days)
  }

  /** How alike the narration and the settlement reference are, in its weight. */
  function Likeness(p: Policy, reference: string, rows: seq<Event>, similarity: Similarity): real {
    p.weights.narration as real * similarity(reference, JoinNarrations(rows))
  }

  /** The scores of bank rows: amount, reference and date at full weight or nothing, narration by similarity. */
  ghost predicate ScoredBy(p: Policy, f: Facts, similarity: Similarity, features: seq<SupportFeature>)
    requires f.gateway != []
  {
    var bank, utr, day := Pick(f).rows, ReportedReference(f.gateway), ReportedDay(f.gateway);
    && |features| == 4
    && features[0] == SupportFeature(AmountFeature, IfMet(Total(bank) == ReportedAmount(f.gateway), p.weights.amount))
    && features[1] == SupportFeature(ReferenceFeature,
         IfMet(utr != "" && OnlyReference(bank, utr), p.weights.reference))
    && features[2] == SupportFeature(DateFeature, IfMet(AllDated(bank, day, p.maxDays), p.weights.date))
    && features[3].feature == NarrationFeature
    && IsNearest(Likeness(p, f.reference, bank, similarity), features[3].score)
  }

  lemma {:induction false} ReferencesAgree(rows: seq<Event>, utr: string)
    requires utr != ""
    ensures GivenUtrs(rows) == {utr} <==> OnlyReference(rows, utr)
  {
    var utrs := GivenUtrs(rows);
    if utrs == {utr} {
      assert utr in utrs;
      forall e | e in rows && e.utr != "" ensures e.utr == utr {
        assert e.utr in utrs;
      }
    }
  }

  lemma {:induction false} DatesNear(p: Policy, rows: seq<Event>, day: int)
    ensures WithinWindow(p, rows, day) <==> AllDated(rows, day, p.maxDays)
  {
    forall e | e in rows ensures Gap(DateOf(e), day) <= p.maxDays <==> Near(DateOf(e), day, p.maxDays) {
      NearExactly(DateOf(e), day, p.maxDays);
    }
    hide Gap, Near;
  }

  lemma NarrationIsNearest(p: Policy, reference: string, rows: seq<Event>, similarity: Similarity)
    ensures IsNearest(Likeness(p, reference, rows, similarity), NarrationScore(p, reference, rows, similarity))
  {
    var x := Likeness(p, reference, rows, similarity);
    RoundsToNearest(x);
    assert NarrationScore(p, reference, rows, similarity) == RoundHalfEven(x);
  }

  lemma {:induction false} BankRowsScore(p: Policy, f: Facts, similarity: Similarity)
    requires f.gateway != [] && Pick(f).rows != []
    ensures ScoredBy(p, f, similarity,
                     ScoreBankGroup(p, Pick(f).rows, Net(f.gateway), f.reference, ExpectedUtr(f.gateway), Anchor(f.gateway).day, similarity))
  {
    var bank, utr := Pick(f).rows, ExpectedUtr(f.gateway);
    hide Pick, Total, Net, ExpectedUtr, Anchor, WithinWindow, ReportedAmount, ReportedReference, ReportedDay, RoundHalfEven,
         Near, DateOf, IsNearest, GivenUtrs, OnlyReference, AllDated, Likeness;
    ReportedExactly(f.gateway);
    NarrationIsNearest(p, f.reference, bank, similarity);
    hide NarrationScore;
    DatesNear(p, bank, Anchor(f.gateway).day);
    if utr != "" {
      ReferencesAgree(bank, utr);
    }
  }

  /** A settlement with bank rows that is not proved outright is scored by them; one without any, or proved outright, is
      not scored. The score is the sum, but no more than 10000. */
  lemma {:induction false} ScoresExactly(p: Policy, f: Facts, similarity: Similarity)
    requires f.gateway != []
    ensures var features := Features(p, f, similarity);
      && (FullyProved(p, f) || Pick(f).rows == [] ==> features == [] && Score(features) == 0)
      && (!FullyProved(p, f) && Pick(f).rows != [] ==>
           && ScoredBy(p, f, similarity, features)
           && var sum := features[0].score + features[1].score + features[2].score + features[3].score;
             Score(features) == if sum > 10_000 then 10_000 else sum)
  {
    hide FullyProved, Pick, Net, ExpectedUtr, Anchor, ScoredBy, SumScores;
    if !FullyProved(p, f) && Pick(f).rows != [] {
      BankRowsScore(p, f, similarity);
      hide ScoreBankGroup;
      FourFeatures(p, f, similarity, Features(p, f, similarity));
      FourScores(Features(p, f, similarity));
    }
  }

  lemma FourFeatures(p: Policy, f: Facts, similarity: Similarity, features: seq<SupportFeature>)
    requires f.gateway != [] && ScoredBy(p, f, similarity, features)
    ensures |features| == 4
  {
    hide Pick, Total, ReportedAmount, ReportedReference, ReportedDay, DateOf, Near, IsNearest, IfMet;
  }

  lemma {:induction false} FourScores(features: seq<SupportFeature>)
    requires |features| == 4
    ensures SumScores(features) == features[0].score + features[1].score + features[2].score + features[3].score
  {
    var one, two, three := features[1..], features[1..][1..], features[1..][1..][1..];
    assert SumScores(three) == three[0].score + SumScores(three[1..]);
    assert SumScores(two) == two[0].score + SumScores(three);
    assert SumScores(one) == one[0].score + SumScores(two);
  }

  /** A support check sets a score against its weight, allows no difference, and is never required. */
  predicate ShowsScore(c: Check, feature: Feature, weight: int, score: int, cited: seq<Link>) {
    && c.code == Support(feature) && c.expected == Number(weight) && c.observed == Number(score) && c.tolerance == None
    && (c.passed <==> score == weight) && !c.required && c.links == cited
  }

  /** The four support checks in order. The first three pass exactly when their condition holds or weighs nothing. */
  lemma {:induction false} SupportShows(p: Policy, f: Facts, similarity: Similarity, cited: seq<Link>)
    requires f.gateway != [] && !FullyProved(p, f) && Pick(f).rows != []
    ensures var bank, utr, day := Pick(f).rows, ReportedReference(f.gateway), ReportedDay(f.gateway);
      var features := Features(p, f, similarity);
      var checks := SupportChecks(p, features, cited);
      && |features| == 4 && |checks| == 4
      && ShowsScore(checks[0], AmountFeature, p.weights.amount, features[0].score, cited)
      && ShowsScore(checks[1], ReferenceFeature, p.weights.reference, features[1].score, cited)
      && ShowsScore(checks[2], DateFeature, p.weights.date, features[2].score, cited)
      && ShowsScore(checks[3], NarrationFeature, p.weights.narration, features[3].score, cited)
      && (checks[0].passed <==> p.weights.amount == 0 || Total(bank) == ReportedAmount(f.gateway))
      && (checks[1].passed <==> p.weights.reference == 0 || (utr != "" && OnlyReference(bank, utr)))
      && (checks[2].passed <==> p.weights.date == 0 || AllDated(bank, day, p.maxDays))
  {
    hide FullyProved, Pick, Features, Total, ReportedAmount, ReportedReference, ReportedDay, OnlyReference, AllDated, Likeness, IsNearest, Score;
    ScoresExactly(p, f, similarity);
  }
}
