/** Settlement-to-bank-to-ERP proof construction. */
module SettlementRule {
  import opened Events
  import opened Selection
  import opened Grouping
  import opened Context
  import opened Proposals

  /** `SequenceMatcher(None, a, b).ratio()` on lower-cased text: any value in [0, 1]. */
  type Similarity = (string, string) -> real

  // ---- what the rule reads ------------------------------------------------------------------

  function SettlementRows(gateway: seq<Event>): seq<Event> {
    Select(gateway, OfKind({EventType.Settlement}))
  }

  function Anchor(gateway: seq<Event>): Event
    requires gateway != []
  {
    if SettlementRows(gateway) != [] then SettlementRows(gateway)[0] else gateway[0]
  }

  /** The net amount the gateway reports as settled. */
  function Net(gateway: seq<Event>): nat {
    if SettlementRows(gateway) != [] then SettlementRows(gateway)[0].amount else 0
  }

  function ExpectedUtr(gateway: seq<Event>): string {
    if SettlementRows(gateway) != [] then SettlementRows(gateway)[0].externalRef else ""
  }

  /** Everything the rule looks up for one settlement reference. `anchored` are the free bank rows
      with the anchor's reference (the fall-back of the bank selection), `exact` those with the
      settlement row's reference; they differ only when there is no settlement row. */
  datatype Facts = Facts(
    reference: string,
    gateway: seq<Event>,
    anchored: seq<Event>,
    exact: seq<Event>,
    search: GroupingResult,
    journals: seq<seq<Event>>
  )

  function FactsOf(b: Batch, reference: string, consumed: set<string>): Facts
    requires GatewaySettlement(b, reference) != []
  {
    var gateway := GatewaySettlement(b, reference);
    Facts(
      reference,
      gateway,
      UtrRows(b, Anchor(gateway).externalRef, consumed),
      UtrRows(b, ExpectedUtr(gateway), consumed),
      Search(Receipts(b, Anchor(gateway).day, consumed), Net(gateway), b.policy.grouping),
      Journals(ErpLines(b, reference)))
  }

  // ---- bank selection -----------------------------------------------------------------------

  datatype BankPick = BankPick(rows: seq<Event>, candidates: seq<Event>, ambiguous: bool, bounded: bool)

  function Flatten(groups: seq<seq<Event>>): seq<Event> {
    if groups == [] then [] else groups[0] + Flatten(groups[1..])
  }

  /** `{event.event_id: event for event in s}.values()`. */
  function OnePerId(s: seq<Event>): seq<Event> {
    if s == [] then []
    else
      var before, last := OnePerId(s[..|s| - 1]), s[|s| - 1];
      if last.eventId in Ids(before) then before else before + [last]
  }

  /** Every row of every competing group, once. */
  function Considered(groups: seq<Group>): seq<Event> {
    ById(OnePerId(Flatten(groups)))
  }

  function SelectBankGroup(search: GroupingResult, anchored: seq<Event>): BankPick {
    if |search.groups| == 1 then BankPick(search.groups[0], search.groups[0], false, search.boundedOut)
    else if |search.groups| > 1 then BankPick(search.groups[0], Considered(search.groups), true, search.boundedOut)
    else if |anchored| == 1 then BankPick(anchored, anchored, false, search.boundedOut)
    else if |anchored| > 1 then BankPick(anchored[..1], anchored, true, search.boundedOut)
    else BankPick([], [], false, search.boundedOut)
  }

  /** Several free bank rows carry the settlement's own reference but do not add up to it. */
  predicate IdentifierConflict(f: Facts) {
    |f.exact| > 1 && Total(f.exact) != Net(f.gateway)
  }

  function Pick(f: Facts): BankPick {
    var selected := SelectBankGroup(f.search, f.anchored);
    if IdentifierConflict(f) then BankPick(f.exact, f.exact, false, selected.bounded) else selected
  }

  // ---- the fifteen conditions ---------------------------------------------------------------

  function ExpectedNet(p: Policy, f: Facts): int {
    SignedTotal(p, Select(f.gateway, NotOfKind(EventType.Settlement)))
  }

  function ClearingExpected(p: Policy, f: Facts): int {
    SignedTotal(p, Select(f.gateway, OfKind({Payment, Refund, Adjustment})))
  }

  function KindTotal(f: Facts, kind: EventType): nat {
    Total(Select(f.gateway, OfKind({kind})))
  }

  function Journal(f: Facts): seq<Event> {
    if |f.journals| == 1 then f.journals[0] else []
  }

  function Posted(f: Facts, role: Role): nat {
    Total(Select(Journal(f), PostedTo(role)))
  }

  function SideTotal(f: Facts, side: Direction): nat {
    Total(Select(Journal(f), OnSide(side)))
  }

  function Gap(a: int, b: int): nat {
    if a < b then b - a else a - b
  }

  predicate SettlementUnique(f: Facts) { |SettlementRows(f.gateway)| == 1 }

  predicate ComponentsAgree(p: Policy, f: Facts) {
    Gap(ExpectedNet(p, f), Net(f.gateway)) <= p.componentTolerance
  }

  predicate BankPresent(f: Facts) { Pick(f).rows != [] }

  predicate BankAmountAgrees(p: Policy, f: Facts) {
    BankPresent(f) && Gap(Total(Pick(f).rows), Net(f.gateway)) <= p.bankTolerance
  }

  predicate AllCredits(f: Facts) {
    BankPresent(f) && forall e | e in Pick(f).rows :: e.direction == Credit
  }

  predicate UtrAgrees(f: Facts) {
    && BankPresent(f) && ExpectedUtr(f.gateway) != ""
    && forall e | e in Pick(f).rows :: e.utr == ExpectedUtr(f.gateway)
  }

  predicate DatesFit(p: Policy, f: Facts)
    requires f.gateway != []
  {
    && BankPresent(f)
    && forall e | e in Pick(f).rows ::
         e.valueDate.Some? && p.minDays <= e.valueDate.value - Anchor(f.gateway).day <= p.maxDays
  }

  predicate BankUnique(f: Facts) {
    BankPresent(f) && !Pick(f).ambiguous && !Pick(f).bounded
  }

  predicate ErpPresent(f: Facts) { f.journals != [] }

  predicate ErpUnique(f: Facts) { |f.journals| == 1 }

  predicate Balanced(f: Facts) {
    Journal(f) != [] && SideTotal(f, Debit) == SideTotal(f, Credit)
  }

  predicate RoleAgrees(p: Policy, f: Facts, role: Role, expected: int) {
    Journal(f) != [] && Gap(Posted(f, role), expected) <= p.erpTolerance
  }

  /** The four account roles, each with the amount its postings must show. */
  function RoleTargets(p: Policy, f: Facts): seq<(CheckCode, Role, int)> {
    [ (ErpBankPosting, p.bankRole, Net(f.gateway)),
      (ErpClearingPosting, p.clearingRole, ClearingExpected(p, f)),
      (ErpFeePosting, p.feeRole, KindTotal(f, Fee)),
      (ErpTaxPosting, p.taxRole, KindTotal(f, Tax)) ]
  }

  predicate TargetMet(p: Policy, f: Facts, i: nat)
    requires i < 4
  {
    RoleAgrees(p, f, RoleTargets(p, f)[i].1, RoleTargets(p, f)[i].2)
  }

  predicate FirstTargetsMet(p: Policy, f: Facts, n: nat)
    requires n <= 4
  {
    forall i: nat | i < n :: TargetMet(p, f, i)
  }

  predicate RolesAgree(p: Policy, f: Facts) {
    FirstTargetsMet(p, f, 4)
  }

  predicate HardUnique(f: Facts) {
    SettlementUnique(f) && BankUnique(f) && ErpUnique(f)
  }

  predicate IsAmbiguous(f: Facts) { Pick(f).ambiguous || Pick(f).bounded }

  predicate IsInvalid(f: Facts) { Journal(f) != [] && !Balanced(f) }

  // ---- evidence -----------------------------------------------------------------------------

  function GatewayLinks(f: Facts): seq<Link> { EvidenceFor(f.gateway, GatewayComponent) }

  function BankLinks(f: Facts): seq<Link> { EvidenceFor(Pick(f).candidates, BankReceipt) }

  function ErpLinks(f: Facts): seq<Link> { EvidenceFor(Flatten(f.journals), ErpPosting) }

  function CitedBank(f: Facts): seq<Link> { if BankLinks(f) != [] then BankLinks(f) else GatewayLinks(f) }

  function CitedErp(f: Facts): seq<Link> { if ErpLinks(f) != [] then ErpLinks(f) else GatewayLinks(f) }

  /** The rows of the case, in event-id order. */
  function Members(f: Facts): seq<Event> {
    ById(f.gateway + Pick(f).candidates + Flatten(f.journals))
  }

  // ---- checks and reasons -------------------------------------------------------------------

  function Hard(code: CheckCode, expected: Scalar, observed: Scalar, passed: bool, links: seq<Link>,
                tolerance: Option<int> := None): Check {
    Check(code, expected, observed, tolerance, passed, true, links)
  }

  function Offsets(rows: seq<Event>, day: int): seq<int> {
    if rows == [] then []
    else (if rows[0].valueDate.Some? then [rows[0].valueDate.value - day] else []) + Offsets(rows[1..], day)
  }

  function GatewayChecks(p: Policy, f: Facts): seq<Check> {
    var expected, net := ExpectedNet(p, f), Net(f.gateway);
    [ Hard(GatewaySettlementUnique, Number(1), Number(|SettlementRows(f.gateway)|), SettlementUnique(f), GatewayLinks(f)),
      Hard(SettlementComponentInvariant, Number(expected), Number(net), ComponentsAgree(p, f), GatewayLinks(f),
           Some(p.componentTolerance)),
      Check(SettlementComponentVariance, Number(0), Number(net - expected), Some(p.componentTolerance),
            ComponentsAgree(p, f), false, GatewayLinks(f)) ]
  }

  function ReceiptChecks(p: Policy, f: Facts): seq<Check> {
    var rows, cited, net := Pick(f).rows, CitedBank(f), Net(f.gateway);
    [ Hard(BankReceiptPresent, Truth(true), Truth(BankPresent(f)), BankPresent(f), cited),
      Hard(BankReceiptAmount, Number(net), Number(Total(rows)), BankAmountAgrees(p, f), cited, Some(p.bankTolerance)),
      Hard(BankReceiptDirection, Sides({Credit}), Sides(set e | e in rows :: e.direction), AllCredits(f), cited) ]
  }

  function IdentityChecks(p: Policy, f: Facts): seq<Check>
    requires f.gateway != []
  {
    var rows, cited := Pick(f).rows, CitedBank(f);
    [ Hard(BankReceiptReference, Text(ExpectedUtr(f.gateway)), References(set e | e in rows :: e.utr), UtrAgrees(f), cited),
      Hard(BankReceiptDate, Window(p.minDays, p.maxDays), Days(Offsets(rows, Anchor(f.gateway).day)), DatesFit(p, f), cited),
      Hard(BankReceiptUnique, Truth(true), Truth(BankUnique(f)), BankUnique(f), cited) ]
  }

  function ErpChecks(f: Facts): seq<Check> {
    [ Hard(ErpJournalPresent, Truth(true), Truth(ErpPresent(f)), ErpPresent(f), CitedErp(f)),
      Hard(ErpJournalUnique, Number(1), Number(|f.journals|), ErpUnique(f), CitedErp(f)),
      Hard(ErpJournalBalanced, Number(SideTotal(f, Debit)), Number(SideTotal(f, Credit)), Balanced(f), CitedErp(f)) ]
  }

  function RoleCheck(p: Policy, f: Facts, target: (CheckCode, Role, int)): Check {
    Hard(target.0, Number(target.2), Number(Posted(f, target.1)), RoleAgrees(p, f, target.1, target.2), CitedErp(f),
         Some(p.erpTolerance))
  }

  function RoleChecks(p: Policy, f: Facts): seq<Check> {
    var t := RoleTargets(p, f);
    [RoleCheck(p, f, t[0]), RoleCheck(p, f, t[1]), RoleCheck(p, f, t[2]), RoleCheck(p, f, t[3])]
  }

  function ProofChecks(p: Policy, f: Facts): seq<Check>
    requires f.gateway != []
  {
    GatewayChecks(p, f) + (ReceiptChecks(p, f) + IdentityChecks(p, f)) + (ErpChecks(f) + RoleChecks(p, f))
  }

  function When(condition: bool, reason: Reason): seq<Reason> {
    if condition then [reason] else []
  }

  function GatewayReasons(p: Policy, f: Facts): seq<Reason> {
    (if SettlementUnique(f) then []
     else [if SettlementRows(f.gateway) != [] then DuplicateIdentifier else UnknownUnresolved])
    + When(!ComponentsAgree(p, f), SettlementComponentMismatch)
  }

  function BankReasons(p: Policy, f: Facts): seq<Reason>
    requires f.gateway != []
  {
    When(IdentifierConflict(f), DuplicateIdentifier) + ReceiptReasons(p, f) + IdentityReasons(p, f)
  }

  function ReceiptReasons(p: Policy, f: Facts): seq<Reason> {
    When(!BankPresent(f), MissingBankReceipt)
    + When(BankPresent(f) && !BankAmountAgrees(p, f), BankAmountMismatch)
  }

  function IdentityReasons(p: Policy, f: Facts): seq<Reason>
    requires f.gateway != []
  {
    When(BankAmountAgrees(p, f) && !UtrAgrees(f), ReferenceMismatch)
    + When(BankPresent(f) && !DatesFit(p, f), BankDateOutOfRange)
    + When(IsAmbiguous(f), BankReceiptAmbiguous)
  }

  function ErpReasons(p: Policy, f: Facts): seq<Reason> {
    When(!ErpPresent(f), MissingErpPosting)
    + When(|f.journals| > 1, DuplicateErpPosting)
    + When(IsInvalid(f), ErpJournalUnbalanced)
    + RoleReasons(p, f)
  }

  function RoleReasons(p: Policy, f: Facts): seq<Reason> {
    When(Balanced(f) && !RolesAgree(p, f), ErpPostingMismatch)
  }

  function RawReasons(p: Policy, f: Facts): seq<Reason>
    requires f.gateway != []
  {
    GatewayReasons(p, f) + BankReasons(p, f) + ErpReasons(p, f)
  }

  function Reasons(p: Policy, f: Facts): seq<Reason>
    requires f.gateway != []
  {
    WithoutRepeats(RawReasons(p, f))
  }

  // ---- support scoring ----------------------------------------------------------------------

  /** Python's `round`: ties go to the even neighbour. */
  function RoundHalfEven(x: real): int {
    var below := x.Floor;
    var rest := x - below as real;
    if rest < 0.5 || (rest == 0.5 && below % 2 == 0) then below else below + 1
  }

  function JoinNarrations(rows: seq<Event>): string {
    if rows == [] then "" else if |rows| == 1 then rows[0].narration
    else rows[0].narration + " " + JoinNarrations(rows[1..])
  }

  predicate WithinWindow(p: Policy, rows: seq<Event>, day: int) {
    forall e | e in rows :: Gap(if e.valueDate.Some? then e.valueDate.value else e.day, day) <= p.maxDays
  }

  function NarrationScore(p: Policy, reference: string, rows: seq<Event>, similarity: Similarity): int {
    RoundHalfEven(p.weights.narration as real * similarity(reference, JoinNarrations(rows)))
  }

  function GivenUtrs(rows: seq<Event>): set<string> {
    set e | e in rows && e.utr != "" :: e.utr
  }

  /** Features of a chosen bank group; never a source of proof. */
  function ScoreBankGroup(p: Policy, rows: seq<Event>, expected: int, reference: string, utr: string, day: int,
                          similarity: Similarity): seq<SupportFeature> {
    if rows == [] then []
    else
      [ SupportFeature(AmountFeature, if Total(rows) == expected then p.weights.amount else 0),
        SupportFeature(ReferenceFeature,
          if utr != "" && GivenUtrs(rows) == {utr} then p.weights.reference else 0),
        SupportFeature(DateFeature, if WithinWindow(p, rows, day) then p.weights.date else 0),
        SupportFeature(NarrationFeature, NarrationScore(p, reference, rows, similarity)) ]
  }

  function WeightOf(p: Policy, feature: Feature): int {
    match feature
    case AmountFeature => p.weights.amount
    case ReferenceFeature => p.weights.reference
    case DateFeature => p.weights.date
    case NarrationFeature => p.weights.narration
  }

  function SupportCheck(p: Policy, s: SupportFeature, cited: seq<Link>): Check {
    Check(Support(s.feature), Number(WeightOf(p, s.feature)), Number(s.score), None,
          s.score == WeightOf(p, s.feature), false, cited)
  }

  function SupportChecks(p: Policy, features: seq<SupportFeature>, cited: seq<Link>): seq<Check> {
    seq(|features|, i requires 0 <= i < |features| => SupportCheck(p, features[i], cited))
  }

  function SumScores(features: seq<SupportFeature>): int {
    if features == [] then 0 else features[0].score + SumScores(features[1..])
  }

  function Score(features: seq<SupportFeature>): int {
    if features == [] then 0 else Least(10_000, SumScores(features))
  }

  predicate FullyProved(p: Policy, f: Facts)
    requires f.gateway != []
  {
    RequiredPass(p.required, ProofChecks(p, f)) && HardUnique(f)
  }

  function Features(p: Policy, f: Facts, similarity: Similarity): seq<SupportFeature>
    requires f.gateway != []
  {
    if FullyProved(p, f) then []
    else ScoreBankGroup(p, Pick(f).rows, Net(f.gateway), f.reference, ExpectedUtr(f.gateway), Anchor(f.gateway).day, similarity)
  }

  function Least(a: int, b: int): int { if a < b then a else b }

  function Greatest(a: int, b: int): int { if a < b then b else a }

  /** The proposal made from the facts of one settlement. */
  function SettlementProposal(runId: string, p: Policy, f: Facts, similarity: Similarity): Proposal
    requires f.gateway != []
  {
    var features := Features(p, f, similarity);
    Proposal(
      StableId("proposal", runId, f.reference, p.versionedId),
      f.reference,
      Ids(Members(f)),
      ProofChecks(p, f) + SupportChecks(p, features, CitedBank(f)),
      FirstOfEach(GatewayLinks(f) + BankLinks(f) + ErpLinks(f)),
      Reasons(p, f),
      RULES,
      features,
      Score(features),
      Greatest(Greatest(Net(f.gateway), ExpectedNet(p, f)), 0),
      HardUnique(f),
      IsAmbiguous(f),
      IsInvalid(f))
  }

  // ---- the rule itself ----------------------------------------------------------------------

  method SelectBank(b: Batch, ix: Indexes, anchor: Event, expected: int, consumed: set<string>)
    returns (pick: BankPick)
    requires Ordered(b.events) && Faithful(ix, b.events)
    ensures pick == SelectBankGroup(
      Search(Receipts(b, anchor.day, consumed), expected, b.policy.grouping),
      UtrRows(b, anchor.externalRef, consumed))
  {
    hide Ordered, Faithful, Search, Receipts, UtrRows;
    var candidates := BankCandidates(b, anchor.day, consumed);
    var grouping := AmountGroups(candidates, expected, b.policy.grouping);
    DateOrderIsImmaterial(b, anchor.day, consumed, expected);
    if |grouping.groups| == 1 {
      return BankPick(grouping.groups[0], grouping.groups[0], false, grouping.boundedOut);
    }
    if |grouping.groups| > 1 {
      return BankPick(grouping.groups[0], Considered(grouping.groups), true, grouping.boundedOut);
    }
    var exact := RowsWithUtr(b, ix, anchor.externalRef, consumed);
    if |exact| == 1 {
      return BankPick(exact, exact, false, grouping.boundedOut);
    }
    if |exact| > 1 {
      return BankPick(exact[..1], exact, true, grouping.boundedOut);
    }
    pick := BankPick([], [], false, grouping.boundedOut);
  }

  method CheckGateway(p: Policy, gateway: seq<Event>, ghost f: Facts)
    returns (checks: seq<Check>, reasons: seq<Reason>, expectedNet: int)
    requires f.gateway == gateway
    ensures checks == GatewayChecks(p, f) && reasons == GatewayReasons(p, f) && expectedNet == ExpectedNet(p, f)
  {
    hide Select, SettlementRows, SignedTotal;
    var links := EvidenceFor(gateway, GatewayComponent);
    var settlements := SettlementRows(gateway);
    checks := [Hard(GatewaySettlementUnique, Number(1), Number(|settlements|), |settlements| == 1, links)];
    reasons := [];
    if |settlements| != 1 {
      reasons := reasons + [if settlements != [] then DuplicateIdentifier else UnknownUnresolved];
    }
    expectedNet := SignedTotal(p, Select(gateway, NotOfKind(EventType.Settlement)));
    var net := Net(gateway);
    var passed := Gap(expectedNet, net) <= p.componentTolerance;
    checks := checks + [Hard(SettlementComponentInvariant, Number(expectedNet), Number(net), passed, links,
                             Some(p.componentTolerance))];
    checks := checks + [Check(SettlementComponentVariance, Number(0), Number(net - expectedNet),
                              Some(p.componentTolerance), passed, false, links)];
    if !passed {
      reasons := reasons + [SettlementComponentMismatch];
    }
  }

  method CheckReceipt(p: Policy, net: int, rows: seq<Event>, cited: seq<Link>, ghost f: Facts)
    returns (checks: seq<Check>, reasons: seq<Reason>, amountPassed: bool)
    requires net == Net(f.gateway) && rows == Pick(f).rows && cited == CitedBank(f)
    ensures checks == ReceiptChecks(p, f) && reasons == ReceiptReasons(p, f)
    ensures amountPassed == BankAmountAgrees(p, f)
  {
    hide Net, Total, Pick, CitedBank, Gap;
    var present := rows != [];
    reasons := [];
    checks := [Hard(BankReceiptPresent, Truth(true), Truth(present), present, cited)];
    if !present {
      reasons := reasons + [MissingBankReceipt];
    }
    amountPassed := present && Gap(Total(rows), net) <= p.bankTolerance;
    checks := checks + [Hard(BankReceiptAmount, Number(net), Number(Total(rows)), amountPassed, cited, Some(p.bankTolerance))];
    if present && !amountPassed {
      reasons := reasons + [BankAmountMismatch];
    }
    var directionPassed := present && forall e | e in rows :: e.direction == Credit;
    checks := checks + [Hard(BankReceiptDirection, Sides({Credit}), Sides(set e | e in rows :: e.direction), directionPassed, cited)];
  }

  method CheckIdentity(p: Policy, gateway: seq<Event>, pick: BankPick, cited: seq<Link>, amountPassed: bool, ghost f: Facts)
    returns (checks: seq<Check>, reasons: seq<Reason>, unique: bool, ambiguous: bool)
    requires f.gateway == gateway != [] && pick == Pick(f) && cited == CitedBank(f)
    requires amountPassed == BankAmountAgrees(p, f)
    ensures checks == IdentityChecks(p, f) && reasons == IdentityReasons(p, f)
    ensures unique == BankUnique(f) && ambiguous == IsAmbiguous(f)
  {
    hide SettlementRows, Total, Pick, CitedBank, Offsets, Gap;
    var rows, utr, day := pick.rows, ExpectedUtr(gateway), Anchor(gateway).day;
    var present := rows != [];
    reasons := [];
    var referencePassed := present && utr != "" && forall e | e in rows :: e.utr == utr;
    checks := [Hard(BankReceiptReference, Text(utr), References(set e | e in rows :: e.utr), referencePassed, cited)];
    if present && amountPassed && !referencePassed {
      reasons := reasons + [ReferenceMismatch];
    }
    var datePassed := present && forall e | e in rows ::
      e.valueDate.Some? && p.minDays <= e.valueDate.value - day <= p.maxDays;
    checks := checks + [Hard(BankReceiptDate, Window(p.minDays, p.maxDays), Days(Offsets(rows, day)), datePassed, cited)];
    if present && !datePassed {
      reasons := reasons + [BankDateOutOfRange];
    }
    unique := present && !pick.ambiguous && !pick.bounded;
    checks := checks + [Hard(BankReceiptUnique, Truth(true), Truth(unique), unique, cited)];
    ambiguous := false;
    if pick.ambiguous || pick.bounded {
      ambiguous := true;
      reasons := reasons + [BankReceiptAmbiguous];
    }
  }

  method CheckErp(journals: seq<seq<Event>>, cited: seq<Link>, p: Policy, ghost f: Facts)
    returns (checks: seq<Check>, reasons: seq<Reason>, balanced: bool, invalid: bool)
    requires f.journals == journals && cited == CitedErp(f)
    ensures checks == ErpChecks(f) && reasons + RoleReasons(p, f) == ErpReasons(p, f)
    ensures balanced == Balanced(f) && invalid == IsInvalid(f)
  {
    hide Select, Total, CitedErp, RoleReasons;
    reasons, invalid := [], false;
    checks := [Hard(ErpJournalPresent, Truth(true), Truth(journals != []), journals != [], cited)];
    if journals == [] {
      reasons := reasons + [MissingErpPosting];
    }
    checks := checks + [Hard(ErpJournalUnique, Number(1), Number(|journals|), |journals| == 1, cited)];
    if |journals| > 1 {
      reasons := reasons + [DuplicateErpPosting];
    }
    var journal := if |journals| == 1 then journals[0] else [];
    var debits, credits := Total(Select(journal, OnSide(Debit))), Total(Select(journal, OnSide(Credit)));
    balanced := journal != [] && debits == credits;
    checks := checks + [Hard(ErpJournalBalanced, Number(debits), Number(credits), balanced, cited)];
    if journal != [] && !balanced {
      invalid := true;
      reasons := reasons + [ErpJournalUnbalanced];
    }
  }

  method CheckRoles(p: Policy, gateway: seq<Event>, journal: seq<Event>, balanced: bool, cited: seq<Link>, ghost f: Facts)
    returns (checks: seq<Check>, reasons: seq<Reason>)
    requires f.gateway == gateway && journal == Journal(f) && balanced == Balanced(f) && cited == CitedErp(f)
    ensures checks == RoleChecks(p, f) && reasons == RoleReasons(p, f)
  {
    hide Select, Total, SignedTotal, CitedErp, Journal, SideTotal, Net;
    var targets := [
      (ErpBankPosting, p.bankRole, Net(gateway)),
      (ErpClearingPosting, p.clearingRole, SignedTotal(p, Select(gateway, OfKind({Payment, Refund, Adjustment})))),
      (ErpFeePosting, p.feeRole, Total(Select(gateway, OfKind({Fee})))),
      (ErpTaxPosting, p.taxRole, Total(Select(gateway, OfKind({Tax}))))];
    assert targets == RoleTargets(p, f);
    checks, reasons := [], [];
    for i := 0 to 4
      invariant checks == RoleChecks(p, f)[..i]
      invariant reasons == When(balanced && !FirstTargetsMet(p, f, i), ErpPostingMismatch)
    {
      var (code, role, expected) := targets[i];
      var observed := Total(Select(journal, PostedTo(role)));
      var passed := journal != [] && Gap(observed, expected) <= p.erpTolerance;
      assert passed == TargetMet(p, f, i);
      assert FirstTargetsMet(p, f, i + 1) <==> FirstTargetsMet(p, f, i) && TargetMet(p, f, i);
      checks := checks + [Hard(code, Number(expected), Number(observed), passed, cited, Some(p.erpTolerance))];
      if journal != [] && balanced && !passed && ErpPostingMismatch !in reasons {
        reasons := reasons + [ErpPostingMismatch];
      }
    }
  }

  /** The selected rows, unless several free rows claim the settlement's reference in vain. */
  method ChooseBank(b: Batch, ix: Indexes, gateway: seq<Event>, consumed: set<string>, ghost f: Facts)
    returns (pick: BankPick, conflict: bool)
    requires Ordered(b.events) && Faithful(ix, b.events)
    requires GatewaySettlement(b, f.reference) == gateway != [] && f == FactsOf(b, f.reference, consumed)
    ensures pick == Pick(f) && conflict == IdentifierConflict(f)
  {
    hide Ordered, Faithful, Search, Receipts, UtrRows, Journals, ErpLines, GatewaySettlement, Total, SelectBankGroup,
         SettlementRows;
    pick := SelectBank(b, ix, Anchor(gateway), Net(gateway), consumed);
    var exact := RowsWithUtr(b, ix, ExpectedUtr(gateway), consumed);
    conflict := |exact| > 1 && Total(exact) != Net(gateway);
    if conflict {
      pick := BankPick(exact, exact, false, pick.bounded);
    }
  }

  method AppendSupport(p: Policy, checks: seq<Check>, features: seq<SupportFeature>, cited: seq<Link>)
    returns (r: seq<Check>)
    ensures r == checks + SupportChecks(p, features, cited)
  {
    hide SupportCheck;
    r := checks;
    for i := 0 to |features|
      invariant r == checks + SupportChecks(p, features, cited)[..i]
    {
      r := r + [SupportCheck(p, features[i], cited)];
    }
  }

  method CheckBankSide(b: Batch, ix: Indexes, gateway: seq<Event>, consumed: set<string>, ghost f: Facts)
    returns (pick: BankPick, cited: seq<Link>, checks: seq<Check>, reasons: seq<Reason>, unique: bool, ambiguous: bool)
    requires Ordered(b.events) && Faithful(ix, b.events)
    requires GatewaySettlement(b, f.reference) == gateway != [] && f == FactsOf(b, f.reference, consumed)
    ensures pick == Pick(f) && cited == CitedBank(f)
    ensures checks == ReceiptChecks(b.policy, f) + IdentityChecks(b.policy, f) && reasons == BankReasons(b.policy, f)
    ensures unique == BankUnique(f) && ambiguous == IsAmbiguous(f)
  {
    hide Ordered, Faithful, GatewaySettlement, Pick, EvidenceFor, ReceiptChecks, IdentityChecks, ReceiptReasons,
         IdentityReasons, BankUnique, IsAmbiguous, BankAmountAgrees, IdentifierConflict, Net;
    var conflict;
    pick, conflict := ChooseBank(b, ix, gateway, consumed, f);
    reasons := if conflict then [DuplicateIdentifier] else [];
    var links := EvidenceFor(pick.candidates, BankReceipt);
    cited := if links != [] then links else EvidenceFor(gateway, GatewayComponent);
    var amountPassed, receiptReasons, identityChecks, identityReasons;
    checks, receiptReasons, amountPassed := CheckReceipt(b.policy, Net(gateway), pick.rows, cited, f);
    identityChecks, identityReasons, unique, ambiguous := CheckIdentity(b.policy, gateway, pick, cited, amountPassed, f);
    checks, reasons := checks + identityChecks, reasons + receiptReasons + identityReasons;
  }

  method CheckErpSide(b: Batch, ix: Indexes, gateway: seq<Event>, reference: string, ghost f: Facts)
    returns (journals: seq<seq<Event>>, checks: seq<Check>, reasons: seq<Reason>, invalid: bool)
    requires Ordered(b.events) && Faithful(ix, b.events)
    requires f.gateway == gateway && f.journals == Journals(ErpLines(b, reference))
    ensures journals == f.journals
    ensures checks == ErpChecks(f) + RoleChecks(b.policy, f) && reasons == ErpReasons(b.policy, f)
    ensures invalid == IsInvalid(f)
  {
    hide Ordered, Faithful, Flatten, EvidenceFor, ErpChecks, RoleChecks, ErpReasons, RoleReasons, Balanced, IsInvalid,
         Journals, ErpLines;
    journals := ErpJournals(b, ix, reference);
    var links := EvidenceFor(Flatten(journals), ErpPosting);
    var cited := if links != [] then links else EvidenceFor(gateway, GatewayComponent);
    var balanced, roleChecks, roleReasons;
    checks, reasons, balanced, invalid := CheckErp(journals, cited, b.policy, f);
    var journal := if |journals| == 1 then journals[0] else [];
    roleChecks, roleReasons := CheckRoles(b.policy, gateway, journal, balanced, cited, f);
    checks, reasons := checks + roleChecks, reasons + roleReasons;
  }

  method Conclude(b: Batch, reference: string, gateway: seq<Event>, pick: BankPick, cited: seq<Link>,
                  journals: seq<seq<Event>>, proofChecks: seq<Check>, reasons: seq<Reason>, expectedNet: int,
                  bankUnique: bool, ambiguous: bool, invalid: bool, similarity: Similarity, ghost f: Facts)
    returns (proposal: Proposal)
    requires f.reference == reference && f.gateway == gateway != [] && f.journals == journals
    requires pick == Pick(f) && cited == CitedBank(f)
    requires proofChecks == ProofChecks(b.policy, f) && reasons == RawReasons(b.policy, f)
    requires expectedNet == ExpectedNet(b.policy, f) && bankUnique == BankUnique(f)
    requires ambiguous == IsAmbiguous(f) && invalid == IsInvalid(f)
    ensures proposal == SettlementProposal(b.runId, b.policy, f, similarity)
    ensures proposal.eventIds == Ids(Members(f))
  {
    hide Pick, CitedBank, ProofChecks, RawReasons, ExpectedNet, BankUnique, IsAmbiguous, IsInvalid, ScoreBankGroup,
         FirstOfEach, Flatten, SettlementRows, ById, WithoutRepeats, RequiredPass, EvidenceFor, SupportChecks, Score, Ids;
    var p := b.policy;
    var hardUnique := |SettlementRows(gateway)| == 1 && bankUnique && |journals| == 1;
    var features := [];
    if !(RequiredPass(p.required, proofChecks) && hardUnique) {
      features := ScoreBankGroup(p, pick.rows, Net(gateway), reference, ExpectedUtr(gateway), Anchor(gateway).day, similarity);
    }
    var checks := AppendSupport(p, proofChecks, features, cited);
    var selected := ById(gateway + pick.candidates + Flatten(journals));
    var links := UniqueEvidence(
      EvidenceFor(gateway, GatewayComponent) + EvidenceFor(pick.candidates, BankReceipt)
      + EvidenceFor(Flatten(journals), ErpPosting));
    proposal := Proposal(
      StableId("proposal", b.runId, reference, p.versionedId), reference,
      Ids(selected), checks, links, WithoutRepeats(reasons), RULES, features, Score(features),
      Greatest(Greatest(Net(gateway), expectedNet), 0), hardUnique, ambiguous, invalid);
  }

  method AnalyzeSettlement(b: Batch, ix: Indexes, reference: string, consumed: set<string>, similarity: Similarity)
    returns (proposal: Proposal)
    requires Ordered(b.events) && Faithful(ix, b.events) && GatewaySettlement(b, reference) != []
    ensures proposal == SettlementProposal(b.runId, b.policy, FactsOf(b, reference, consumed), similarity)
    ensures proposal.eventIds == Ids(Members(FactsOf(b, reference, consumed)))
  {
    ghost var f := FactsOf(b, reference, consumed);
    hide Ordered, Faithful, Search, Receipts, UtrRows, Journals, ErpLines, Pick, SettlementRows, GatewayChecks,
         ReceiptChecks, IdentityChecks, ErpChecks, RoleChecks, GatewayReasons, BankReasons, ErpReasons, CitedBank,
         BankUnique, IsAmbiguous, IsInvalid, ExpectedNet, SettlementProposal;
    var p := b.policy;
    var gateway := GatewayRows(b, ix, reference);
    var checks, reasons, expectedNet := CheckGateway(p, gateway, f);
    var pick, cited, bankChecks, bankReasons, bankUnique, ambiguous := CheckBankSide(b, ix, gateway, consumed, f);
    checks, reasons := checks + bankChecks, reasons + bankReasons;
    var journals, erpChecks, erpReasons, invalid := CheckErpSide(b, ix, gateway, reference, f);
    checks, reasons := checks + erpChecks, reasons + erpReasons;
    assert checks == ProofChecks(p, f);
    proposal := Conclude(b, reference, gateway, pick, cited, journals, checks, reasons, expectedNet,
                         bankUnique, ambiguous, invalid, similarity, f);
  }
}
