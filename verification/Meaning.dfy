/** What the settlement rule decides, told by the fields of the rows it reads. */
module Meaning {
  import opened Events
  import opened Selection
  import opened Grouping
  import opened Context
  import opened Proposals
  import opened SettlementRule
  import opened CaseFacts
  import opened Gate
  import opened Verdicts
  import opened Proof
  import opened Money
  import opened Totality

  // ---- gateway rows -------------------------------------------------------------------------

  function SettlementCount(rows: seq<Event>): nat {
    if rows == [] then 0 else (if rows[0].kind == EventType.Settlement then 1 else 0) + SettlementCount(rows[1..])
  }

  function FirstSettlement(rows: seq<Event>): Option<Event> {
    if rows == [] then None else if rows[0].kind == EventType.Settlement then Some(rows[0]) else FirstSettlement(rows[1..])
  }

  /** The amount, the reference and the day that a settlement reports: those of its first settlement row, or else
      nothing, none, and the day of its first row. */
  function ReportedAmount(rows: seq<Event>): nat {
    if FirstSettlement(rows).Some? then FirstSettlement(rows).value.amount else 0
  }

  function ReportedReference(rows: seq<Event>): string {
    if FirstSettlement(rows).Some? then FirstSettlement(rows).value.externalRef else ""
  }

  function ReportedDay(rows: seq<Event>): int
    requires rows != []
  {
    if FirstSettlement(rows).Some? then FirstSettlement(rows).value.day else rows[0].day
  }

  lemma {:induction false} SettlementRowsShape(rows: seq<Event>)
    ensures |SettlementRows(rows)| == SettlementCount(rows)
    ensures FirstSettlement(rows) == if SettlementRows(rows) == [] then None else Some(SettlementRows(rows)[0])
  {
    if rows != [] {
      SettlementRowsShape(rows[1..]);
      SelectHead(rows, OfKind({EventType.Settlement}));
      hide Select;
    }
  }

  lemma {:induction false} ReportedExactly(rows: seq<Event>)
    requires rows != []
    ensures Net(rows) == ReportedAmount(rows) && ExpectedUtr(rows) == ReportedReference(rows) && Anchor(rows).day == ReportedDay(rows)
  {
    SettlementRowsShape(rows);
    hide SettlementRows, FirstSettlement;
  }

  // ---- ledger lines -------------------------------------------------------------------------

  /** What the lines on one side add up to. */
  function SideAmount(lines: seq<Event>, side: Direction): nat {
    if lines == [] then 0 else (if lines[0].direction == side then lines[0].amount else 0) + SideAmount(lines[1..], side)
  }

  /** What is posted to the accounts of a role, on its side. */
  function RoleAmount(lines: seq<Event>, role: Role): nat {
    if lines == [] then 0
    else (if lines[0].account in role.accounts && lines[0].direction == role.direction then lines[0].amount else 0)
         + RoleAmount(lines[1..], role)
  }

  lemma {:induction false} AmountsOfLines(p: Policy, lines: seq<Event>, side: Direction, role: Role)
    ensures Total(Select(lines, OnSide(side))) == SideAmount(lines, side)
    ensures Total(Select(lines, PostedTo(role))) == RoleAmount(lines, role)
  {
    if lines != [] {
      AmountsOfLines(p, lines[1..], side, role);
      hide Select, Total;
      SumOfHead(p, lines, OnSide(side));
      SumOfHead(p, lines, PostedTo(role));
    }
  }

  // ---- the fifteen conditions ---------------------------------------------------------------

  predicate Near(a: int, b: int, tolerance: int) {
    -tolerance <= a - b <= tolerance
  }

  /** The one journal, if there is exactly one. */
  function OnlyJournal(journals: seq<seq<Event>>): seq<Event> {
    if |journals| == 1 then journals[0] else []
  }

  predicate IsBalanced(journals: seq<seq<Event>>) {
    OnlyJournal(journals) != [] && SideAmount(OnlyJournal(journals), Debit) == SideAmount(OnlyJournal(journals), Credit)
  }

  predicate RoleReceives(p: Policy, journals: seq<seq<Event>>, role: Role, target: int) {
    OnlyJournal(journals) != [] && Near(RoleAmount(OnlyJournal(journals), role), target, p.erpTolerance)
  }

  /** The conditions on the gateway rows and on the bank rows that were chosen. */
  predicate BankCondition(p: Policy, f: Facts, code: CheckCode)
    requires f.gateway != []
  {
    var bank, amount, reference, day := Pick(f).rows, ReportedAmount(f.gateway), ReportedReference(f.gateway), ReportedDay(f.gateway);
    match code
    case GatewaySettlementUnique => SettlementCount(f.gateway) == 1
    case SettlementComponentInvariant => Near(NetAmount(p.signs, f.gateway), amount, p.componentTolerance)
    case BankReceiptPresent => bank != []
    case BankReceiptAmount => bank != [] && Near(Total(bank), amount, p.bankTolerance)
    case BankReceiptDirection => bank != [] && forall e | e in bank :: e.direction == Credit
    case BankReceiptReference => bank != [] && reference != "" && forall e | e in bank :: e.utr == reference
    case BankReceiptDate =>
      bank != [] && forall e | e in bank :: e.valueDate.Some? && day + p.minDays <= e.valueDate.value <= day + p.maxDays
    case _ => bank != [] && !Pick(f).ambiguous && !Pick(f).bounded
  }

  /** The conditions on the journals. */
  predicate LedgerCondition(p: Policy, f: Facts, code: CheckCode) {
    match code
    case ErpJournalPresent => f.journals != []
    case ErpJournalUnique => |f.journals| == 1
    case ErpJournalBalanced => IsBalanced(f.journals)
    case ErpBankPosting => RoleReceives(p, f.journals, p.bankRole, ReportedAmount(f.gateway))
    case ErpClearingPosting => RoleReceives(p, f.journals, p.clearingRole, ClearingAmount(p.signs, f.gateway))
    case ErpFeePosting => RoleReceives(p, f.journals, p.feeRole, KindAmount(f.gateway, Fee))
    case _ => RoleReceives(p, f.journals, p.taxRole, KindAmount(f.gateway, Tax))
  }

  const BANK_CODES: set<CheckCode> := {
    GatewaySettlementUnique, SettlementComponentInvariant, BankReceiptPresent, BankReceiptAmount, BankReceiptDirection,
    BankReceiptReference, BankReceiptDate, BankReceiptUnique
  }

  ghost predicate Condition(p: Policy, f: Facts, code: CheckCode)
    requires f.gateway != []
  {
    if code in BANK_CODES then BankCondition(p, f, code) else LedgerCondition(p, f, code)
  }

  lemma NearExactly(a: int, b: int, tolerance: int)
    ensures Gap(a, b) <= tolerance <==> Near(a, b, tolerance)
  {
  }

  /** The conditions that compare amounts or count rows. */
  lemma {:induction false} BankAmountsHold(p: Policy, f: Facts)
    requires f.gateway != [] && GatewayKinds(f.gateway)
    ensures SettlementUnique(f) <==> BankCondition(p, f, GatewaySettlementUnique)
    ensures ComponentsAgree(p, f) <==> BankCondition(p, f, SettlementComponentInvariant)
    ensures BankAmountAgrees(p, f) <==> BankCondition(p, f, BankReceiptAmount)
  {
    hide SettlementRows, Pick, Total, ExpectedNet, NetAmount, Net, ExpectedUtr, Anchor, ReportedAmount, ReportedReference, ReportedDay,
         SettlementCount, FirstSettlement, GatewayKinds, KindTotal, ClearingExpected, ClearingAmount, KindAmount, Gap, Near;
    SettlementRowsShape(f.gateway);
    ReportedExactly(f.gateway);
    ComponentsByKind(p, f);
    NearExactly(ExpectedNet(p, f), Net(f.gateway), p.componentTolerance);
    NearExactly(Total(Pick(f).rows), Net(f.gateway), p.bankTolerance);
  }

  /** The conditions on each of the chosen bank rows. */
  lemma {:induction false} BankRowsHold(p: Policy, f: Facts)
    requires f.gateway != []
    ensures BankPresent(f) <==> BankCondition(p, f, BankReceiptPresent)
    ensures AllCredits(f) <==> BankCondition(p, f, BankReceiptDirection)
    ensures UtrAgrees(f) <==> BankCondition(p, f, BankReceiptReference)
    ensures DatesFit(p, f) <==> BankCondition(p, f, BankReceiptDate)
    ensures BankUnique(f) <==> BankCondition(p, f, BankReceiptUnique)
  {
    hide Pick, Total, NetAmount, Net, ExpectedUtr, Anchor, ReportedAmount, ReportedReference, ReportedDay, SettlementCount;
    ReportedExactly(f.gateway);
  }

  lemma {:induction false} BankHoldsExactly(p: Policy, f: Facts, code: CheckCode)
    requires f.gateway != [] && GatewayKinds(f.gateway) && code in BANK_CODES
    ensures code in FIFTEEN && (Holds(p, f, code) <==> BankCondition(p, f, code))
  {
    hide SettlementUnique, ComponentsAgree, BankPresent, BankAmountAgrees, AllCredits, UtrAgrees, DatesFit, BankUnique, BankCondition,
         GatewayKinds, TargetMet;
    BankAmountsHold(p, f);
    BankRowsHold(p, f);
  }

  lemma {:induction false} RoleReceivesExactly(p: Policy, f: Facts, role: Role, target: int)
    ensures RoleAgrees(p, f, role, target) <==> RoleReceives(p, f.journals, role, target)
  {
    AmountsOfLines(p, Journal(f), Debit, role);
    NearExactly(Posted(f, role), target, p.erpTolerance);
    hide Select, Total, RoleAmount, Gap, Near;
  }

  lemma {:induction false} BalancedExactly(p: Policy, f: Facts)
    ensures Balanced(f) <==> IsBalanced(f.journals)
  {
    AmountsOfLines(p, Journal(f), Debit, p.bankRole);
    AmountsOfLines(p, Journal(f), Credit, p.bankRole);
    hide Select, Total, SideAmount;
  }

  lemma {:induction false} LedgerHoldsExactly(p: Policy, f: Facts, code: CheckCode)
    requires f.gateway != [] && GatewayKinds(f.gateway) && code in FIFTEEN && code !in BANK_CODES
    ensures Holds(p, f, code) <==> LedgerCondition(p, f, code)
  {
    hide RoleAgrees, RoleReceives, Balanced, IsBalanced, Net, KindTotal, ClearingExpected, ClearingAmount, KindAmount, ReportedAmount, GatewayKinds,
         ExpectedNet, NetAmount, ExpectedUtr, ReportedReference, Anchor, ReportedDay;
    ReportedExactly(f.gateway);
    ComponentsByKind(p, f);
    BalancedExactly(p, f);
    RoleReceivesExactly(p, f, p.bankRole, ReportedAmount(f.gateway));
    RoleReceivesExactly(p, f, p.clearingRole, ClearingAmount(p.signs, f.gateway));
    RoleReceivesExactly(p, f, p.feeRole, KindAmount(f.gateway, Fee));
    RoleReceivesExactly(p, f, p.taxRole, KindAmount(f.gateway, Tax));
  }

  /** Each of the fifteen conditions, told by the fields of the rows. */
  lemma {:induction false} HoldsExactly(p: Policy, f: Facts, code: CheckCode)
    requires f.gateway != [] && GatewayKinds(f.gateway) && code in FIFTEEN
    ensures Holds(p, f, code) <==> Condition(p, f, code)
  {
    hide Holds, BankCondition, LedgerCondition, GatewayKinds, FIFTEEN, BANK_CODES;
    if code in BANK_CODES {
      BankHoldsExactly(p, f, code);
    } else {
      LedgerHoldsExactly(p, f, code);
    }
  }

  // ---- the reasons --------------------------------------------------------------------------

  /** Several free bank rows carry the reported reference and miss the reported amount. */
  predicate RowsConflict(f: Facts) {
    |f.exact| > 1 && Total(f.exact) != ReportedAmount(f.gateway)
  }

  /** When a reason is given. */
  ghost predicate GivesReason(p: Policy, f: Facts, reason: Reason)
    requires f.gateway != []
  {
    match reason
    case ErpJournalUnbalanced => OnlyJournal(f.journals) != [] && !IsBalanced(f.journals)
    case DuplicateErpPosting => |f.journals| > 1
    case DuplicateIdentifier => SettlementCount(f.gateway) > 1 || RowsConflict(f)
    case BankReceiptAmbiguous => Pick(f).ambiguous || Pick(f).bounded
    case SettlementComponentMismatch => !Condition(p, f, SettlementComponentInvariant)
    case BankAmountMismatch => Pick(f).rows != [] && !Condition(p, f, BankReceiptAmount)
    case ErpPostingMismatch =>
      IsBalanced(f.journals)
      && !(Condition(p, f, ErpBankPosting) && Condition(p, f, ErpClearingPosting) && Condition(p, f, ErpFeePosting) && Condition(p, f, ErpTaxPosting))
    case ReferenceMismatch => Condition(p, f, BankReceiptAmount) && !Condition(p, f, BankReceiptReference)
    case MissingBankReceipt => Pick(f).rows == []
    case MissingErpPosting => f.journals == []
    case BankDateOutOfRange => Pick(f).rows != [] && !Condition(p, f, BankReceiptDate)
    case OrphanBankCredit => false
    case OrphanErpPosting => false
    case UnknownUnresolved => SettlementCount(f.gateway) == 0
  }

  lemma {:induction false} ConflictExactly(f: Facts)
    requires f.gateway != []
    ensures IdentifierConflict(f) <==> RowsConflict(f)
  {
    ReportedExactly(f.gateway);
    hide Total, Net, ReportedAmount;
  }

  /** A settlement gives a reason exactly when the rows do. */
  lemma {:induction false} ReasonsExactly(p: Policy, f: Facts, reason: Reason)
    requires f.gateway != [] && GatewayKinds(f.gateway)
    ensures reason in Reasons(p, f) <==> GivesReason(p, f, reason)
  {
    hide SettlementUnique, ComponentsAgree, BankPresent, BankAmountAgrees, UtrAgrees, DatesFit, Balanced, IsBalanced, RolesAgree, IdentifierConflict,
         RowsConflict, Pick, SettlementRows, SettlementCount, WithoutRepeats, Condition, GatewayKinds, Total;
    ConflictExactly(f);
    SettlementRowsShape(f.gateway);
    BalancedExactly(p, f);
    ConditionsExactly(p, f);
    WithoutRepeatsMembers(RawReasons(p, f));
    hide GatewayReasons, BankReasons, ErpReasons;
    GatewayReasonsExactly(p, f, reason);
    BankReasonsExactly(p, f, reason);
    ErpReasonsExactly(p, f, reason);
  }

  lemma {:induction false} ConditionsExactly(p: Policy, f: Facts)
    requires f.gateway != [] && GatewayKinds(f.gateway)
    ensures SettlementUnique(f) <==> SettlementCount(f.gateway) == 1
    ensures BankPresent(f) <==> Pick(f).rows != []
    ensures ComponentsAgree(p, f) <==> Condition(p, f, SettlementComponentInvariant)
    ensures BankAmountAgrees(p, f) <==> Condition(p, f, BankReceiptAmount)
    ensures UtrAgrees(f) <==> Condition(p, f, BankReceiptReference)
    ensures DatesFit(p, f) <==> Condition(p, f, BankReceiptDate)
    ensures RolesAgree(p, f) <==>
      Condition(p, f, ErpBankPosting) && Condition(p, f, ErpClearingPosting) && Condition(p, f, ErpFeePosting) && Condition(p, f, ErpTaxPosting)
  {
    hide SettlementUnique, ComponentsAgree, BankAmountAgrees, UtrAgrees, DatesFit, Pick, SettlementCount, Condition, GatewayKinds, TargetMet;
    HoldsExactly(p, f, GatewaySettlementUnique);
    HoldsExactly(p, f, SettlementComponentInvariant);
    HoldsExactly(p, f, BankReceiptAmount);
    HoldsExactly(p, f, BankReceiptReference);
    HoldsExactly(p, f, BankReceiptDate);
    HoldsExactly(p, f, ErpBankPosting);
    HoldsExactly(p, f, ErpClearingPosting);
    HoldsExactly(p, f, ErpFeePosting);
    HoldsExactly(p, f, ErpTaxPosting);
    UniqueIsCounted(p, f);
  }

  lemma {:induction false} UniqueIsCounted(p: Policy, f: Facts)
    ensures SettlementUnique(f) <==> SettlementCount(f.gateway) == 1
  {
    SettlementRowsShape(f.gateway);
    hide SettlementRows, SettlementCount, FirstSettlement;
  }

  lemma {:induction false} GatewayReasonsExactly(p: Policy, f: Facts, reason: Reason)
    ensures reason in GatewayReasons(p, f) <==>
      || (reason == DuplicateIdentifier && !SettlementUnique(f) && SettlementRows(f.gateway) != [])
      || (reason == UnknownUnresolved && !SettlementUnique(f) && SettlementRows(f.gateway) == [])
      || (reason == SettlementComponentMismatch && !ComponentsAgree(p, f))
  {
    hide SettlementUnique, ComponentsAgree, SettlementRows;
  }

  lemma GivenWhen(condition: bool, given: Reason, reason: Reason)
    ensures reason in When(condition, given) <==> condition && reason == given
  {
  }

  lemma {:induction false} BankReasonsExactly(p: Policy, f: Facts, reason: Reason)
    requires f.gateway != []
    ensures reason in BankReasons(p, f) <==>
      || (reason == DuplicateIdentifier && IdentifierConflict(f))
      || (reason == MissingBankReceipt && !BankPresent(f))
      || (reason == BankAmountMismatch && BankPresent(f) && !BankAmountAgrees(p, f))
      || (reason == ReferenceMismatch && BankAmountAgrees(p, f) && !UtrAgrees(f))
      || (reason == BankDateOutOfRange && BankPresent(f) && !DatesFit(p, f))
      || (reason == BankReceiptAmbiguous && IsAmbiguous(f))
  {
    hide IdentifierConflict, BankPresent, BankAmountAgrees, UtrAgrees, DatesFit, IsAmbiguous, When;
    GivenWhen(IdentifierConflict(f), DuplicateIdentifier, reason);
    GivenWhen(!BankPresent(f), MissingBankReceipt, reason);
    GivenWhen(BankPresent(f) && !BankAmountAgrees(p, f), BankAmountMismatch, reason);
    GivenWhen(BankAmountAgrees(p, f) && !UtrAgrees(f), ReferenceMismatch, reason);
    GivenWhen(BankPresent(f) && !DatesFit(p, f), BankDateOutOfRange, reason);
    GivenWhen(IsAmbiguous(f), BankReceiptAmbiguous, reason);
  }

  lemma {:induction false} ErpReasonsExactly(p: Policy, f: Facts, reason: Reason)
    ensures reason in ErpReasons(p, f) <==>
      || (reason == MissingErpPosting && f.journals == [])
      || (reason == DuplicateErpPosting && |f.journals| > 1)
      || (reason == ErpJournalUnbalanced && Journal(f) != [] && !Balanced(f))
      || (reason == ErpPostingMismatch && Balanced(f) && !RolesAgree(p, f))
  {
    hide Balanced, RolesAgree, Journal, When;
    GivenWhen(!ErpPresent(f), MissingErpPosting, reason);
    GivenWhen(|f.journals| > 1, DuplicateErpPosting, reason);
    GivenWhen(IsInvalid(f), ErpJournalUnbalanced, reason);
    GivenWhen(Balanced(f) && !RolesAgree(p, f), ErpPostingMismatch, reason);
  }

  /** Where a reason stands in the order in which they are given. */
  function Place(f: Facts, reason: Reason): nat {
    match reason
    case UnknownUnresolved => 0
    case DuplicateIdentifier => if SettlementCount(f.gateway) > 1 then 0 else 2
    case SettlementComponentMismatch => 1
    case MissingBankReceipt => 3
    case BankAmountMismatch => 4
    case ReferenceMismatch => 5
    case BankDateOutOfRange => 6
    case BankReceiptAmbiguous => 7
    case MissingErpPosting => 8
    case DuplicateErpPosting => 9
    case ErpJournalUnbalanced => 10
    case ErpPostingMismatch => 11
    case _ => 12
  }

  /** No reason comes twice, and each comes after those before its place. */
  ghost predicate InPlace(f: Facts, reasons: seq<Reason>) {
    forall i, j | 0 <= i < j < |reasons| :: Place(f, reasons[i]) < Place(f, reasons[j])
  }

  ghost predicate UpTo(f: Facts, raw: seq<Reason>, last: Reason) {
    InPlace(f, WithoutRepeats(raw)) && forall r | r in raw :: Place(f, r) <= Place(f, last)
  }

  /** A reason joined to reasons that all come before it. */
  lemma {:induction false} Joined(f: Facts, before: seq<Reason>, last: Reason, condition: bool, reason: Reason)
    requires UpTo(f, before, last) && Place(f, last) < Place(f, reason)
    ensures UpTo(f, before + When(condition, reason), reason)
  {
    WithoutRepeatsMembers(before);
    if condition {
      assert (before + [reason])[..|before|] == before;
    } else {
      assert before + [] == before;
    }
    hide Place;
  }

  /** A reason that may be there already. */
  lemma {:induction false} Rejoined(f: Facts, before: seq<Reason>, last: Reason, condition: bool, reason: Reason)
    requires UpTo(f, before, last) && reason in before
    ensures UpTo(f, before + When(condition, reason), last)
  {
    if condition {
      assert (before + [reason])[..|before|] == before;
      assert forall r | r in before + [reason] :: r in before;
    } else {
      assert before + [] == before;
    }
    hide Place;
  }

  lemma {:induction false} ReceiptInOrder(p: Policy, f: Facts, before: seq<Reason>, last: Reason)
    requires UpTo(f, before, last) && Place(f, last) < 3
    ensures UpTo(f, before + ReceiptReasons(p, f), BankAmountMismatch)
  {
    hide BankPresent, BankAmountAgrees, UpTo, When;
    Joined(f, before, last, !BankPresent(f), MissingBankReceipt);
    var more := before + When(!BankPresent(f), MissingBankReceipt);
    Joined(f, more, MissingBankReceipt, BankPresent(f) && !BankAmountAgrees(p, f), BankAmountMismatch);
    assert before + ReceiptReasons(p, f) == more + When(BankPresent(f) && !BankAmountAgrees(p, f), BankAmountMismatch);
  }

  lemma {:induction false} IdentityInOrder(p: Policy, f: Facts, before: seq<Reason>)
    requires f.gateway != [] && UpTo(f, before, BankAmountMismatch)
    ensures UpTo(f, before + IdentityReasons(p, f), BankReceiptAmbiguous)
  {
    hide BankPresent, BankAmountAgrees, UtrAgrees, DatesFit, IsAmbiguous, UpTo, When;
    var first, second, third := When(BankAmountAgrees(p, f) && !UtrAgrees(f), ReferenceMismatch),
      When(BankPresent(f) && !DatesFit(p, f), BankDateOutOfRange), When(IsAmbiguous(f), BankReceiptAmbiguous);
    Joined(f, before, BankAmountMismatch, BankAmountAgrees(p, f) && !UtrAgrees(f), ReferenceMismatch);
    Joined(f, before + first, ReferenceMismatch, BankPresent(f) && !DatesFit(p, f), BankDateOutOfRange);
    Joined(f, before + first + second, BankDateOutOfRange, IsAmbiguous(f), BankReceiptAmbiguous);
    assert before + IdentityReasons(p, f) == before + first + second + third;
  }

  lemma {:induction false} ErpInOrder(p: Policy, f: Facts, before: seq<Reason>)
    requires UpTo(f, before, BankReceiptAmbiguous)
    ensures UpTo(f, before + ErpReasons(p, f), ErpPostingMismatch)
  {
    hide ErpPresent, IsInvalid, Balanced, RolesAgree, UpTo, When;
    var first, second := When(!ErpPresent(f), MissingErpPosting), When(|f.journals| > 1, DuplicateErpPosting);
    var third, fourth := When(IsInvalid(f), ErpJournalUnbalanced), When(Balanced(f) && !RolesAgree(p, f), ErpPostingMismatch);
    Joined(f, before, BankReceiptAmbiguous, !ErpPresent(f), MissingErpPosting);
    Joined(f, before + first, MissingErpPosting, |f.journals| > 1, DuplicateErpPosting);
    Joined(f, before + first + second, DuplicateErpPosting, IsInvalid(f), ErpJournalUnbalanced);
    Joined(f, before + first + second + third, ErpJournalUnbalanced, Balanced(f) && !RolesAgree(p, f), ErpPostingMismatch);
    assert before + ErpReasons(p, f) == before + first + second + third + fourth;
  }

  /** The reasons of a settlement come in a fixed order: gateway side, bank side, ledger side. */
  lemma {:induction false} ReasonsComeInOrder(p: Policy, f: Facts)
    requires f.gateway != []
    ensures InPlace(f, Reasons(p, f))
  {
    hide GatewayReasons, ReceiptReasons, IdentityReasons, ErpReasons, IdentifierConflict, UpTo, InPlace, WithoutRepeats, When, SettlementCount;
    var s := GatewayReasons(p, f) + When(IdentifierConflict(f), DuplicateIdentifier);
    GatewayInOrder(p, f);
    ReceiptInOrder(p, f, s, if SettlementCount(f.gateway) > 1 then SettlementComponentMismatch else DuplicateIdentifier);
    IdentityInOrder(p, f, s + ReceiptReasons(p, f));
    ErpInOrder(p, f, s + ReceiptReasons(p, f) + IdentityReasons(p, f));
    assert s + ReceiptReasons(p, f) + IdentityReasons(p, f) + ErpReasons(p, f) == RawReasons(p, f);
    LastIsInPlace(f, RawReasons(p, f));
  }

  lemma LastIsInPlace(f: Facts, raw: seq<Reason>)
    requires UpTo(f, raw, ErpPostingMismatch)
    ensures InPlace(f, WithoutRepeats(raw))
  {
  }

  lemma {:induction false} GatewayInOrder(p: Policy, f: Facts)
    ensures UpTo(f, GatewayReasons(p, f) + When(IdentifierConflict(f), DuplicateIdentifier),
                 if SettlementCount(f.gateway) > 1 then SettlementComponentMismatch else DuplicateIdentifier)
  {
    SettlementRowsShape(f.gateway);
    hide ComponentsAgree, IdentifierConflict, SettlementRows, SettlementCount, FirstSettlement, WithoutRepeats, InPlace;
    var first: seq<Reason> :=
      if SettlementUnique(f) then [] else [if SettlementRows(f.gateway) != [] then DuplicateIdentifier else UnknownUnresolved];
    FirstInPlace(f, first);
    hide UpTo, When;
    var second := first + When(!ComponentsAgree(p, f), SettlementComponentMismatch);
    assert second == GatewayReasons(p, f);
    Joined(f, first, UnknownUnresolved, !ComponentsAgree(p, f), SettlementComponentMismatch);
    if SettlementCount(f.gateway) > 1 {
      assert first[0] == DuplicateIdentifier && second[0] == DuplicateIdentifier;
      Rejoined(f, second, SettlementComponentMismatch, IdentifierConflict(f), DuplicateIdentifier);
    } else {
      Joined(f, second, SettlementComponentMismatch, IdentifierConflict(f), DuplicateIdentifier);
    }
  }

  lemma {:induction false} FirstInPlace(f: Facts, first: seq<Reason>)
    requires |first| <= 1 && forall r | r in first :: Place(f, r) == 0
    ensures UpTo(f, first, UnknownUnresolved)
  {
    hide Place;
    if |first| == 1 {
      assert first[..0] == [] && WithoutRepeats(first) == first;
    }
  }

  // ---- proof, exactly -----------------------------------------------------------------------

  /** The bank rows of a settlement row: its amount in credits, each with its reference and in its window. */
  predicate BankSettles(p: Policy, s: Event, bank: seq<Event>) {
    && bank != [] && s.externalRef != "" && Total(bank) == s.amount
    && forall e | e in bank ::
         e.direction == Credit && e.utr == s.externalRef && e.valueDate.Some? && s.day + p.minDays <= e.valueDate.value <= s.day + p.maxDays
  }

  /** One journal that balances and gives every role its share. */
  predicate LedgerSettles(p: Policy, gateway: seq<Event>, s: Event, journals: seq<seq<Event>>) {
    && IsBalanced(journals)
    && RoleReceives(p, journals, p.bankRole, s.amount) && RoleReceives(p, journals, p.clearingRole, ClearingAmount(p.signs, gateway))
    && RoleReceives(p, journals, p.feeRole, KindAmount(gateway, Fee)) && RoleReceives(p, journals, p.taxRole, KindAmount(gateway, Tax))
  }

  /** The free rows with the settlement's reference are the only group of free credits in the window, within the bounds
      of the search, that makes up its amount. */
  ghost predicate OnlyChoice(b: Batch, s: Event, consumed: set<string>, bank: seq<Event>) {
    var receipts := Receipts(b, s.day, consumed);
    && |receipts| <= b.policy.grouping.maxCandidates
    && forall g :: IsValidGroup(g, receipts, s.amount, b.policy.grouping.maxGroupSize) <==> g == bank
  }

  /** A settlement that adds up, on the rows: exactly one settlement row, which its components make up, which one choice
      of free bank rows pays, and which one journal posts. */
  ghost predicate AddsUp(b: Batch, reference: string, consumed: set<string>) {
    var p, gateway, journals := b.policy, GatewaySettlement(b, reference), Journals(ErpLines(b, reference));
    && SettlementCount(gateway) == 1 && FirstSettlement(gateway).Some?
    && var s := FirstSettlement(gateway).value;
      var bank := UtrRows(b, s.externalRef, consumed);
    && Near(NetAmount(p.signs, gateway), s.amount, p.componentTolerance)
    && BankSettles(p, s, bank) && OnlyChoice(b, s, consumed, bank)
    && LedgerSettles(p, gateway, s, journals)
  }

  lemma {:induction false} AllHoldOnRows(p: Policy, f: Facts)
    requires f.gateway != [] && GatewayKinds(f.gateway) && p.bankTolerance == 0
    ensures AllHold(p, f) <==>
      && SettlementCount(f.gateway) == 1 && FirstSettlement(f.gateway).Some?
      && Near(NetAmount(p.signs, f.gateway), FirstSettlement(f.gateway).value.amount, p.componentTolerance)
      && BankSettles(p, FirstSettlement(f.gateway).value, Pick(f).rows) && !Pick(f).ambiguous && !Pick(f).bounded
      && LedgerSettles(p, f.gateway, FirstSettlement(f.gateway).value, f.journals)
  {
    AllHoldMeansEachHolds(p, f);
    SettlementRowsShape(f.gateway);
    hide Holds, Condition, AllHold, Pick, GatewayKinds, SettlementCount, FirstSettlement, NetAmount, Total, IsBalanced, RoleReceives,
         ClearingAmount, KindAmount, SettlementRows, FIFTEEN;
    forall code | code in FIFTEEN ensures Holds(p, f, code) <==> Condition(p, f, code) {
      HoldsExactly(p, f, code);
    }
    assert AllHold(p, f) <==> forall code | code in FIFTEEN :: Condition(p, f, code);
    FifteenConditions(p, f);
  }

  lemma {:induction false} BankConditions(p: Policy, f: Facts)
    requires f.gateway != [] && p.bankTolerance == 0 && FirstSettlement(f.gateway).Some?
    ensures (forall code | code in BANK_CODES :: BankCondition(p, f, code)) <==>
      && SettlementCount(f.gateway) == 1
      && Near(NetAmount(p.signs, f.gateway), FirstSettlement(f.gateway).value.amount, p.componentTolerance)
      && BankSettles(p, FirstSettlement(f.gateway).value, Pick(f).rows) && !Pick(f).ambiguous && !Pick(f).bounded
  {
    hide Pick, SettlementCount, FirstSettlement, NetAmount, Total;
    if forall code | code in BANK_CODES :: BankCondition(p, f, code) {
      assert BankCondition(p, f, GatewaySettlementUnique) && BankCondition(p, f, SettlementComponentInvariant)
          && BankCondition(p, f, BankReceiptPresent) && BankCondition(p, f, BankReceiptAmount) && BankCondition(p, f, BankReceiptDirection)
          && BankCondition(p, f, BankReceiptReference) && BankCondition(p, f, BankReceiptDate) && BankCondition(p, f, BankReceiptUnique);
    }
  }

  lemma LedgerCodes()
    ensures forall code :: code in FIFTEEN && code !in BANK_CODES <==>
      code in {ErpJournalPresent, ErpJournalUnique, ErpJournalBalanced, ErpBankPosting, ErpClearingPosting, ErpFeePosting, ErpTaxPosting}
  {
  }

  lemma {:induction false} LedgerConditions(p: Policy, f: Facts)
    requires f.gateway != [] && FirstSettlement(f.gateway).Some?
    ensures (forall code | code in FIFTEEN && code !in BANK_CODES :: LedgerCondition(p, f, code)) <==>
      LedgerSettles(p, f.gateway, FirstSettlement(f.gateway).value, f.journals)
  {
    hide FirstSettlement, ClearingAmount, KindAmount, RoleReceives, SideAmount;
    LedgerCodes();
    hide FIFTEEN, BANK_CODES;
    if forall code | code in FIFTEEN && code !in BANK_CODES :: LedgerCondition(p, f, code) {
      assert LedgerCondition(p, f, ErpJournalBalanced) && LedgerCondition(p, f, ErpBankPosting) && LedgerCondition(p, f, ErpClearingPosting)
          && LedgerCondition(p, f, ErpFeePosting) && LedgerCondition(p, f, ErpTaxPosting);
    }
  }

  lemma {:induction false} FifteenConditions(p: Policy, f: Facts)
    requires f.gateway != [] && p.bankTolerance == 0 && (SettlementCount(f.gateway) == 1 ==> FirstSettlement(f.gateway).Some?)
    ensures (forall code | code in FIFTEEN :: Condition(p, f, code)) <==>
      && SettlementCount(f.gateway) == 1 && FirstSettlement(f.gateway).Some?
      && Near(NetAmount(p.signs, f.gateway), FirstSettlement(f.gateway).value.amount, p.componentTolerance)
      && BankSettles(p, FirstSettlement(f.gateway).value, Pick(f).rows) && !Pick(f).ambiguous && !Pick(f).bounded
      && LedgerSettles(p, f.gateway, FirstSettlement(f.gateway).value, f.journals)
  {
    assert GatewaySettlementUnique in BANK_CODES && BANK_CODES <= FIFTEEN;
    assert Condition(p, f, GatewaySettlementUnique) <==> SettlementCount(f.gateway) == 1;
    hide Pick, SettlementCount, FirstSettlement, NetAmount, BankSettles, LedgerSettles, BankCondition, LedgerCondition, FIFTEEN, BANK_CODES;
    if FirstSettlement(f.gateway).Some? {
      BankConditions(p, f);
      LedgerConditions(p, f);
    }
  }

  /** The only choice is what the search finds, and what is picked. */
  lemma {:induction false} OnlyChoiceIsPicked(b: Batch, reference: string, consumed: set<string>)
    requires WellFormed(b) && GatewaySettlement(b, reference) != [] && b.policy.Valid() && AddsUp(b, reference, consumed)
    ensures var f := FactsOf(b, reference, consumed);
      Pick(f) == BankPick(UtrRows(b, FirstSettlement(f.gateway).value.externalRef, consumed),
                          UtrRows(b, FirstSettlement(f.gateway).value.externalRef, consumed), false, false)
  {
    var f, p := FactsOf(b, reference, consumed), b.policy;
    var s := FirstSettlement(f.gateway).value;
    var bank, receipts := UtrRows(b, s.externalRef, consumed), Receipts(b, s.day, consumed);
    ReportedExactly(f.gateway);
    ReceiptsFacts(b, s.day, consumed);
    OrderedIsUnique(receipts);
    hide Search, Receipts, UtrRows, GatewaySettlement, IsValidGroup, InSearchOrder, Journals, ErpLines, LedgerSettles, NetAmount, Net, Anchor,
         ExpectedUtr, Total, WellFormed, SettlementCount;
    FindsOnly(receipts, s.amount, p.grouping, bank);
    assert f.search == GroupingResult([bank], false);
    assert f.exact == bank && !IdentifierConflict(f);
  }

  lemma {:induction false} FindsOnly(candidates: seq<Event>, target: int, g: GroupingPolicy, only: Group)
    requires UniqueIds(candidates) && |candidates| <= g.maxCandidates
    requires forall h :: IsValidGroup(h, candidates, target, g.maxGroupSize) <==> h == only
    ensures Search(candidates, target, g) == GroupingResult([only], false)
  {
    SearchIsExact(candidates, target, g);
    var groups := Search(candidates, target, g).groups;
    hide Search, IsValidGroup, InSearchOrder, Precedes;
    assert IsValidGroup(only, candidates, target, g.maxGroupSize);
    assert groups != [] ==> groups[0] in groups;
    assert only in groups;
    OneFound(groups, only);
  }

  lemma {:induction false} OneFound(groups: seq<Group>, only: Group)
    requires only in groups && forall g | g in groups :: g == only
    requires forall i, j | 0 <= i < j < |groups| :: groups[i] != groups[j]
    ensures groups == [only]
  {
    AlikeAt(groups, only, 0, |groups| - 1);
  }

  lemma AlikeAt(groups: seq<Group>, only: Group, i: nat, j: nat)
    requires i < |groups| && j < |groups| && forall g | g in groups :: g == only
    ensures groups[i] == only && groups[j] == only
  {
    assert groups[i] in groups && groups[j] in groups;
  }

  /** Under the fifteen checks and with no bank tolerance, the gate proves a settlement exactly when it adds up. */
  lemma {:induction false} ProvedExactlyWhenItAddsUp(b: Batch, reference: string, consumed: set<string>, similarity: Similarity)
    requires WellFormed(b) && GatewaySettlement(b, reference) != [] && GatewayKinds(GatewaySettlement(b, reference))
    requires b.policy.Valid() && b.policy.bankTolerance == 0 && b.policy.required == FIFTEEN && BankRowsAreSound(b)
    ensures CaseLevel(b.runId, b.policy, FactsOf(b, reference, consumed), similarity) == Proved <==> AddsUp(b, reference, consumed)
  {
    var f, p := FactsOf(b, reference, consumed), b.policy;
    assert f.gateway == GatewaySettlement(b, reference) && f.journals == Journals(ErpLines(b, reference));
    hide AllHold, CaseLevel, FactsOf, Pick, Journals, ErpLines, GatewaySettlement, GatewayKinds, WellFormed, BankRowsAreSound, FIFTEEN, AddsUp,
         Reasons, AllCredits, AllButDirection;
    SettledJournals(b, reference, consumed);
    ProvedExactlyWhenUnopposed(b.runId, p, f, similarity);
    ExplanationsAreComplete(p, f);
    AllHoldSplits(p, f);
    AllHoldExactly(b, reference, consumed);
  }

  lemma {:induction false} AllHoldExactly(b: Batch, reference: string, consumed: set<string>)
    requires WellFormed(b) && GatewaySettlement(b, reference) != [] && GatewayKinds(GatewaySettlement(b, reference))
    requires b.policy.Valid() && b.policy.bankTolerance == 0 && BankRowsAreSound(b)
    ensures AllHold(b.policy, FactsOf(b, reference, consumed)) <==> AddsUp(b, reference, consumed)
  {
    var f, p := FactsOf(b, reference, consumed), b.policy;
    assert f.gateway == GatewaySettlement(b, reference) && f.journals == Journals(ErpLines(b, reference));
    hide AllHold, FactsOf, Pick, Journals, ErpLines, GatewaySettlement, GatewayKinds, SettlementCount, LedgerSettles, BankSettles,
         NetAmount, WellFormed, BankRowsAreSound, FirstSettlement, Anchor, Net, ExpectedUtr, UtrRows;
    AllHoldOnRows(p, f);
    ReportedExactly(f.gateway);
    if AllHold(p, f) {
      ProvedBankIsForced(b, reference, consumed);
      WithinBounds(b, reference, consumed);
    }
    if AddsUp(b, reference, consumed) {
      OnlyChoiceIsPicked(b, reference, consumed);
    }
  }

  lemma AllHoldSplits(p: Policy, f: Facts)
    requires f.gateway != []
    ensures AllHold(p, f) <==> AllButDirection(p, f) && AllCredits(f)
  {
    hide AllButDirection, AllCredits;
  }

  lemma {:induction false} WithinBounds(b: Batch, reference: string, consumed: set<string>)
    requires WellFormed(b) && GatewaySettlement(b, reference) != [] && AllHold(b.policy, FactsOf(b, reference, consumed))
    ensures |Receipts(b, Anchor(GatewaySettlement(b, reference)).day, consumed)| <= b.policy.grouping.maxCandidates
  {
    var f := FactsOf(b, reference, consumed);
    var receipts := Receipts(b, Anchor(f.gateway).day, consumed);
    assert !f.search.boundedOut by {
      hide Search, SettlementUnique, ComponentsAgree, BankAmountAgrees, UtrAgrees, DatesFit, ErpUnique, Balanced, RolesAgree, AllCredits, Receipts,
           UtrRows, GatewaySettlement;
      assert BankUnique(f);
    }
    ReceiptsFacts(b, Anchor(f.gateway).day, consumed);
    OrderedIsUnique(receipts);
    hide Receipts, GatewaySettlement, AllHold, Search;
    SearchIsExact(receipts, Net(f.gateway), b.policy.grouping);
  }

  lemma {:induction false} SettledJournals(b: Batch, reference: string, consumed: set<string>)
    requires WellFormed(b) && GatewaySettlement(b, reference) != []
    ensures forall g | g in FactsOf(b, reference, consumed).journals :: g != []
  {
    ErpFacts(b, reference);
    hide ErpLines, Journals, GatewaySettlement, UtrRows, Receipts, Search;
    JournalsPartition(ErpLines(b, reference));
  }
}
