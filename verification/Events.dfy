/** Canonical finance events, evidence links, and the versioned policy that judges them. */
module Events {

  datatype Option<+T> = None | Some(value: T)

  datatype Result<+T, +E> = Ok(value: T) | Err(error: E)

  datatype SourceType = Gateway | Bank | Erp

  datatype Direction = Debit | Credit

  datatype EventType =
    | Payment | Refund | Fee | Tax | Adjustment | Settlement
    | BankCredit | BankDebit
    | ErpJournalLine

  /** The raw row an event was read from. */
  datatype Lineage = Lineage(sourceFileId: string, tableName: string, rowNumber: nat, rowHash: string)

  /** Dates are day numbers. An absent reference is the empty string: the rules only ever test
      references for truth, where Python treats `None` and `""` alike. */
  datatype Event = Event(
    eventId: string,
    runId: string,
    source: SourceType,
    recordId: string,
    entity: string,
    kind: EventType,
    amount: nat,
    currency: string,
    direction: Direction,
    day: int,
    valueDate: Option<int>,
    externalRef: string,
    settlementRef: string,
    utr: string,
    account: string,
    narration: string,
    lineage: Lineage
  )

  datatype Purpose = GatewayComponent | BankReceipt | ErpPosting | Unconsumed | JournalSource

  datatype Link = Link(eventId: string, lineage: Lineage, purpose: Purpose)

  function Evidence(e: Event, purpose: Purpose): Link {
    Link(e.eventId, e.lineage, purpose)
  }

  function EvidenceFor(es: seq<Event>, purpose: Purpose): seq<Link> {
    seq(|es|, i requires 0 <= i < |es| => Evidence(es[i], purpose))
  }

  function Ids(es: seq<Event>): seq<string> {
    seq(|es|, i requires 0 <= i < |es| => es[i].eventId)
  }

  function IdSet(es: seq<Event>): set<string> {
    set e | e in es :: e.eventId
  }

  /** A truncated digest of the parts, taken to be injective in them. */
  datatype StableId = StableId(prefix: string, runId: string, key: string, policyId: string)

  // ---- what rules report --------------------------------------------------------------------

  datatype CheckCode =
    | GatewaySettlementUnique | SettlementComponentInvariant
    | BankReceiptPresent | BankReceiptAmount | BankReceiptDirection
    | BankReceiptReference | BankReceiptDate | BankReceiptUnique
    | ErpJournalPresent | ErpJournalUnique | ErpJournalBalanced
    | ErpBankPosting | ErpClearingPosting | ErpFeePosting | ErpTaxPosting
    | SettlementComponentVariance
    | Support(feature: Feature)
    | SourceEvidenceMatched
    | Unrecognized(name: string)

  datatype Feature = AmountFeature | ReferenceFeature | DateFeature | NarrationFeature

  /** The fifteen hard checks of `auto_clear.required_checks`. */
  const FIFTEEN: set<CheckCode> := {
    GatewaySettlementUnique, SettlementComponentInvariant,
    BankReceiptPresent, BankReceiptAmount, BankReceiptDirection,
    BankReceiptReference, BankReceiptDate, BankReceiptUnique,
    ErpJournalPresent, ErpJournalUnique, ErpJournalBalanced,
    ErpBankPosting, ErpClearingPosting, ErpFeePosting, ErpTaxPosting
  }

  datatype Scalar =
    | Number(n: int)
    | Truth(b: bool)
    | Text(t: string)
    | Sides(directions: set<Direction>)
    | References(utrs: set<string>)
    | Days(offsets: seq<int>)
    | Window(first: int, last: int)

  datatype Check = Check(
    code: CheckCode,
    expected: Scalar,
    observed: Scalar,
    tolerance: Option<int>,
    passed: bool,
    required: bool,
    links: seq<Link>
  )

  datatype Reason =
    | ErpJournalUnbalanced | DuplicateErpPosting | DuplicateIdentifier | BankReceiptAmbiguous
    | SettlementComponentMismatch | BankAmountMismatch | ErpPostingMismatch | ReferenceMismatch
    | MissingBankReceipt | MissingErpPosting | BankDateOutOfRange
    | OrphanBankCredit | OrphanErpPosting | UnknownUnresolved

  // ---- policy -------------------------------------------------------------------------------

  datatype Role = Role(accounts: set<string>, direction: Direction)

  datatype GroupingPolicy = GroupingPolicy(maxCandidates: int, maxGroupSize: int, maxValidGroups: int)

  datatype Signs = Signs(payment: int, refund: int, fee: int, tax: int, adjustmentCredit: int, adjustmentDebit: int)

  datatype Weights = Weights(amount: int, reference: int, date: int, narration: int)

  datatype ActionType =
    | JournalExport | ClarificationRequest | MappingCorrection | CorrectedDataImport
    | Wait | AcceptDifference | ManualReview | NoAction

  datatype Treatment = Treatment(category: string, severity: string, action: ActionType, companyInput: bool)

  datatype Policy = Policy(
    versionedId: string,
    currency: string,
    minDays: int,
    maxDays: int,
    componentTolerance: int,
    bankTolerance: int,
    erpTolerance: int,
    signs: Signs,
    bankRole: Role,
    clearingRole: Role,
    feeRole: Role,
    taxRole: Role,
    grouping: GroupingPolicy,
    autoClear: bool,
    required: set<CheckCode>,
    weights: Weights,
    treatments: map<Reason, Treatment>,
    fallback: Treatment
  ) {
    /** The checks `load_policy` and `_validate_ranges` make on a policy file. */
    predicate Valid() {
      && 0 <= minDays <= maxDays
      && componentTolerance >= 0 && bankTolerance >= 0 && erpTolerance >= 0
      && {signs.payment, signs.refund, signs.fee, signs.tax, signs.adjustmentCredit, signs.adjustmentDebit} <= {-1, 1}
      && 1 <= grouping.maxGroupSize <= grouping.maxCandidates
      && grouping.maxValidGroups >= 2
      && weights.amount + weights.reference + weights.date + weights.narration == 10_000
      && required != {}
    }

    /** Sign of a gateway component. The adapters admit only the six gateway event types, so the
        remaining types, for which the lookup would raise, never reach it. */
    function Sign(kind: EventType, direction: Direction): int {
      match kind
      case Payment => signs.payment
      case Refund => signs.refund
      case Fee => signs.fee
      case Tax => signs.tax
      case Adjustment => if direction == Credit then signs.adjustmentCredit else signs.adjustmentDebit
      case _ => 0
    }

    function TreatmentOf(reason: Reason): Treatment {
      if reason in treatments then treatments[reason] else fallback
    }

    predicate ZeroTolerance() {
      componentTolerance == 0 && bankTolerance == 0 && erpTolerance == 0
    }

    /** The account layout of the shipped policy: fees and taxes reduce the settlement, and no
        account is shared between the three debit roles. */
    predicate StandardAccounts() {
      && signs.fee == -1 && signs.tax == -1
      && bankRole.direction == Debit && feeRole.direction == Debit && taxRole.direction == Debit
      && clearingRole.direction == Credit
      && bankRole.accounts !! feeRole.accounts !! taxRole.accounts
    }
  }
}
