/** The risk gate, exception classification, and the constructor checks both must satisfy. */
module Gate {
  import opened Events
  import opened Proposals

  datatype ProofLevel = Proved | Supported | Ambiguous | Contradicted | InvalidInput

  datatype DecisionState = Proposed | AutoCleared | ReviewRequired | Exceptional

  datatype Decision = Decision(
    decisionId: StableId,
    state: DecisionState,
    eventIds: seq<string>,
    level: ProofLevel,
    checks: seq<Check>,
    links: seq<Link>,
    unique: bool,
    contradiction: Option<Reason>,
    allowsAutoClear: bool,
    proposalId: StableId
  )

  datatype ExceptionCase = ExceptionCase(
    caseId: StableId,
    reason: Reason,
    treatment: Treatment,
    amountAtRisk: int,
    level: ProofLevel,
    links: seq<Link>,
    rules: seq<string>
  )

  // ---- decisions ----------------------------------------------------------------------------

  const HARD_CONTRADICTIONS: set<Reason> := {
    DuplicateIdentifier, DuplicateErpPosting, SettlementComponentMismatch, BankAmountMismatch, ErpPostingMismatch
  }

  /** The first reason among the wanted ones. */
  function FirstAmong(reasons: seq<Reason>, wanted: set<Reason>): Option<Reason> {
    if reasons == [] then None
    else if reasons[0] in wanted then Some(reasons[0])
    else FirstAmong(reasons[1..], wanted)
  }

  function Level(p: Proposal, required: set<CheckCode>): ProofLevel {
    if p.invalid then InvalidInput
    else if p.ambiguous then Ambiguous
    else if FirstAmong(p.reasons, HARD_CONTRADICTIONS).Some? then Contradicted
    else if RequiredPass(required, p.checks) && p.unique then Proved
    else Supported
  }

  function State(level: ProofLevel, autoClear: bool): DecisionState {
    match level
    case InvalidInput => Exceptional
    case Ambiguous => ReviewRequired
    case Contradicted => Exceptional
    case Proved => if autoClear then AutoCleared else Proposed
    case Supported => ReviewRequired
  }

  function Decide(runId: string, p: Proposal, policy: Policy): Decision {
    var level := Level(p, policy.required);
    Decision(
      StableId("decision", runId, p.caseKey, policy.versionedId),
      State(level, policy.autoClear),
      p.eventIds,
      level,
      p.checks,
      p.links,
      p.unique,
      if level == Contradicted then FirstAmong(p.reasons, HARD_CONTRADICTIONS) else None,
      level == Proved && policy.autoClear && RequiredPass(policy.required, p.checks) && p.unique,
      p.proposalId)
  }

  // ---- exceptions ---------------------------------------------------------------------------

  const PRIORITY: seq<Reason> := [
    ErpJournalUnbalanced, DuplicateErpPosting, DuplicateIdentifier, BankReceiptAmbiguous,
    SettlementComponentMismatch, BankAmountMismatch, ErpPostingMismatch, ReferenceMismatch,
    MissingBankReceipt, MissingErpPosting, BankDateOutOfRange, OrphanBankCredit, OrphanErpPosting,
    UnknownUnresolved
  ]

  function FirstListed(order: seq<Reason>, reasons: seq<Reason>): Reason {
    if order == [] then UnknownUnresolved
    else if order[0] in reasons then order[0]
    else FirstListed(order[1..], reasons)
  }

  /** The reason an exception is filed under is the most urgent one the proposal gives. */
  lemma {:induction false} FirstListedIsMostUrgent(order: seq<Reason>, reasons: seq<Reason>, k: nat)
    requires k < |order| && order[k] in reasons
    ensures exists i ::
      && 0 <= i <= k && FirstListed(order, reasons) == order[i] && order[i] in reasons
      && forall j | 0 <= j < i :: order[j] !in reasons
  {
    if order[0] in reasons {
    } else {
      FirstListedIsMostUrgent(order[1..], reasons, k - 1);
      var i :| 0 <= i <= k - 1 && FirstListed(order[1..], reasons) == order[1..][i] && order[1..][i] in reasons
        && forall j | 0 <= j < i :: order[1..][j] !in reasons;
      forall j | 0 <= j < i + 1 ensures order[j] !in reasons {
        if j > 0 {
          assert order[j] == order[1..][j - 1];
        }
      }
      assert order[i + 1] == order[1..][i];
    }
  }

  function CreateException(runId: string, p: Proposal, d: Decision, policy: Policy): Option<ExceptionCase> {
    if d.level == Proved then None
    else
      var reason := FirstListed(PRIORITY, p.reasons);
      Some(ExceptionCase(
        StableId("case", runId, p.caseKey, policy.versionedId),
        reason, policy.TreatmentOf(reason), p.amountAtRisk, d.level, d.links, p.rules))
  }

  // ---- constructor checks -------------------------------------------------------------------

  predicate DistinctTexts(s: seq<string>) {
    forall i, j | 0 <= i < j < |s| :: s[i] != s[j]
  }

  predicate CheckAccepted(c: Check) {
    && (c.tolerance.Some? ==> c.tolerance.value >= 0)
    && (c.required ==> c.links != [])
  }

  predicate DecisionAccepted(d: Decision) {
    && d.eventIds != [] && DistinctTexts(d.eventIds)
    && (d.level == Proved ==>
         && (exists i | 0 <= i < |d.checks| :: d.checks[i].required)
         && (forall i | 0 <= i < |d.checks| && d.checks[i].required :: d.checks[i].passed)
         && d.unique && d.links != [] && d.contradiction.None?)
    && (d.level == Contradicted ==> d.contradiction.Some?)
    && (d.allowsAutoClear ==> d.level == Proved)
    && (d.state == AutoCleared ==> d.level == Proved && d.allowsAutoClear)
  }

  predicate ExceptionAccepted(x: ExceptionCase) {
    x.amountAtRisk >= 0 && x.level != Proved && x.links != [] && x.rules != []
  }

  predicate ProposalAccepted(p: Proposal) {
    forall i | 0 <= i < |p.checks| :: CheckAccepted(p.checks[i])
  }

  lemma {:induction false} VerdictFindsCheck(checks: seq<Check>, code: CheckCode)
    requires Verdict(checks, code) == Some(true)
    ensures exists i :: 0 <= i < |checks| && checks[i].code == code && checks[i].passed
  {
    if checks[|checks| - 1].code != code {
      VerdictFindsCheck(checks[..|checks| - 1], code);
    }
  }

  ghost predicate DistinctCodes(checks: seq<Check>) {
    forall i, j | 0 <= i < j < |checks| :: checks[i].code != checks[j].code
  }

  /** When no code repeats, the look-up reads off the check itself. */
  lemma {:induction false} VerdictOfCheck(checks: seq<Check>, i: nat)
    requires DistinctCodes(checks) && i < |checks|
    ensures Verdict(checks, checks[i].code) == Some(checks[i].passed)
  {
    if i < |checks| - 1 {
      VerdictOfCheck(checks[..|checks| - 1], i);
    }
  }

  /** The gate cannot be argued into a clear: an auto-cleared decision has every check its policy
      requires, passed, on a unique match, with no contradiction, ambiguity or invalid input. */
  lemma {:induction false} OnlyProofClears(runId: string, p: Proposal, policy: Policy)
    ensures var d := Decide(runId, p, policy);
      (d.state == AutoCleared <==> d.allowsAutoClear) && (d.allowsAutoClear <==>
        && policy.autoClear && p.unique && !p.ambiguous && !p.invalid
        && RequiredPass(policy.required, p.checks)
        && forall r | r in p.reasons :: r !in HARD_CONTRADICTIONS)
  {
    FirstAmongFinds(p.reasons, HARD_CONTRADICTIONS);
  }

  lemma {:induction false} FirstAmongFinds(reasons: seq<Reason>, wanted: set<Reason>)
    ensures FirstAmong(reasons, wanted).Some? <==> exists r :: r in reasons && r in wanted
    ensures FirstAmong(reasons, wanted).Some? ==> FirstAmong(reasons, wanted).value in reasons
  {
    if reasons != [] {
      FirstAmongFinds(reasons[1..], wanted);
      assert reasons == [reasons[0]] + reasons[1..];
    }
  }

  // ---- the gate as a table ------------------------------------------------------------------

  /** The five reasons that contradict a match. */
  predicate Contradicts(r: Reason) {
    || r == DuplicateIdentifier || r == DuplicateErpPosting || r == SettlementComponentMismatch
    || r == BankAmountMismatch || r == ErpPostingMismatch
  }

  /** The earliest contradicting reason is at this place. */
  ghost predicate EarliestContradiction(reasons: seq<Reason>, i: int) {
    0 <= i < |reasons| && Contradicts(reasons[i]) && forall j | 0 <= j < i :: !Contradicts(reasons[j])
  }

  lemma {:induction false} FirstAmongIsEarliest(reasons: seq<Reason>)
    ensures FirstAmong(reasons, HARD_CONTRADICTIONS).None? ==> forall i | 0 <= i < |reasons| :: !Contradicts(reasons[i])
    ensures FirstAmong(reasons, HARD_CONTRADICTIONS).Some? ==>
      exists i :: EarliestContradiction(reasons, i) && FirstAmong(reasons, HARD_CONTRADICTIONS) == Some(reasons[i])
  {
    if reasons != [] {
      FirstAmongIsEarliest(reasons[1..]);
      if !Contradicts(reasons[0]) && FirstAmong(reasons, HARD_CONTRADICTIONS).Some? {
        var i :| EarliestContradiction(reasons[1..], i) && FirstAmong(reasons[1..], HARD_CONTRADICTIONS) == Some(reasons[1..][i]);
        assert EarliestContradiction(reasons, i + 1);
      } else if Contradicts(reasons[0]) {
        assert EarliestContradiction(reasons, 0);
      }
    }
  }

  /** Level and state of a decision, first match first; it names the earliest contradicting reason exactly when it is
      CONTRADICTED, and carries the proposal's rows, checks and evidence on. */
  lemma {:induction false} DecisionTable(runId: string, p: Proposal, policy: Policy)
    ensures var d := Decide(runId, p, policy);
      var contradicted, passes := exists i :: EarliestContradiction(p.reasons, i), RequiredPass(policy.required, p.checks) && p.unique;
      && (p.invalid ==> d.level == InvalidInput && d.state == Exceptional)
      && (!p.invalid && p.ambiguous ==> d.level == Ambiguous && d.state == ReviewRequired)
      && (!p.invalid && !p.ambiguous && contradicted ==> d.level == Contradicted && d.state == Exceptional)
      && (!p.invalid && !p.ambiguous && !contradicted && passes ==>
           d.level == Proved && d.state == if policy.autoClear then AutoCleared else Proposed)
      && (!p.invalid && !p.ambiguous && !contradicted && !passes ==> d.level == Supported && d.state == ReviewRequired)
      && (d.contradiction.Some? <==> d.level == Contradicted)
      && (d.contradiction.Some? ==> exists i :: EarliestContradiction(p.reasons, i) && d.contradiction == Some(p.reasons[i]))
      && d.eventIds == p.eventIds && d.checks == p.checks && d.links == p.links && d.unique == p.unique && d.proposalId == p.proposalId
  {
    hide RequiredPass, HARD_CONTRADICTIONS, FirstAmong;
    FirstAmongIsEarliest(p.reasons);
    if i :| EarliestContradiction(p.reasons, i) {
      assert Contradicts(p.reasons[i]);
    }
  }

  /** How urgent a reason is: the smaller, the more urgent. */
  function Urgency(r: Reason): nat {
    match r
    case ErpJournalUnbalanced => 0
    case DuplicateErpPosting => 1
    case DuplicateIdentifier => 2
    case BankReceiptAmbiguous => 3
    case SettlementComponentMismatch => 4
    case BankAmountMismatch => 5
    case ErpPostingMismatch => 6
    case ReferenceMismatch => 7
    case MissingBankReceipt => 8
    case MissingErpPosting => 9
    case BankDateOutOfRange => 10
    case OrphanBankCredit => 11
    case OrphanErpPosting => 12
    case UnknownUnresolved => 13
  }

  lemma {:induction false} FirstListedByUrgency(order: seq<Reason>, reasons: seq<Reason>)
    requires forall i, j | 0 <= i < j < |order| :: Urgency(order[i]) < Urgency(order[j])
    requires forall r | r in reasons :: r in order
    ensures reasons == [] ==> FirstListed(order, reasons) == UnknownUnresolved
    ensures reasons != [] ==>
      FirstListed(order, reasons) in reasons && forall r | r in reasons :: Urgency(FirstListed(order, reasons)) <= Urgency(r)
  {
    hide Urgency;
    if reasons == [] {
      if order != [] {
        FirstListedByUrgency(order[1..], reasons);
      }
    } else {
      assert reasons[0] in reasons;
      if order[0] !in reasons {
        FirstListedByUrgency(order[1..], reasons);
      } else {
        forall r | r in reasons ensures Urgency(order[0]) <= Urgency(r) {
          var i :| 0 <= i < |order| && order[i] == r;
        }
      }
    }
  }

  lemma PriorityIsByUrgency()
    ensures |PRIORITY| == 14 && forall i | 0 <= i < 14 :: Urgency(PRIORITY[i]) == i
    ensures forall r: Reason :: r in PRIORITY
  {
    forall r: Reason ensures r in PRIORITY {
      assert PRIORITY[Urgency(r)] == r;
    }
  }

  /** An exception is filed for every decision that is not PROVED, under the most urgent of the proposal's reasons,
      or as unresolved if it gives none, with the treatment, amount and evidence that go with it. */
  lemma {:induction false} ExceptionTable(runId: string, p: Proposal, policy: Policy)
    ensures var d := Decide(runId, p, policy);
      var filed := CreateException(runId, p, d, policy);
      && (filed.None? <==> d.level == Proved)
      && (filed.Some? ==>
           var x := filed.value;
           && (if p.reasons == [] then x.reason == UnknownUnresolved
               else x.reason in p.reasons && forall r | r in p.reasons :: Urgency(x.reason) <= Urgency(r))
           && x.treatment == (if x.reason in policy.treatments then policy.treatments[x.reason] else policy.fallback)
           && x.amountAtRisk == p.amountAtRisk && x.level == d.level && x.links == p.links && x.rules == p.rules)
  {
    PriorityIsByUrgency();
    hide Level, State, RequiredPass, FirstAmong, FirstListed, PRIORITY, Urgency;
    FirstListedByUrgency(PRIORITY, p.reasons);
  }
}
