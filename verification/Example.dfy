/** One small settlement, followed through the kernel: what clears, what makes the kernel raise, and what
    narration decides when a policy lets it. */
module Example {
  import opened Events
  import opened TextOrder
  import opened Selection
  import opened Grouping
  import opened Context
  import opened Proposals
  import opened SettlementRule
  import opened Gate
  import opened Verdicts
  import opened Proof
  import opened Pipeline
  import opened Partition
  import opened Totality
  import opened Ledger
  import opened Correction
  import opened NarrationRun
  import opened Clearance

  // ---- the rows -----------------------------------------------------------------------------

  const LINEAGE: Lineage := Lineage("file", "table", 2, "hash")

  function Row(source: SourceType, recordId: string, kind: EventType, direction: Direction, external: string, settlement: string,
               utr: string, account: string, narration: string): Event {
    Event(EventId("r", source, recordId), "r", source, recordId, "m", kind, 100, "INR", direction, 0, Some(0), external, settlement,
          utr, account, narration, LINEAGE)
  }

  /** What the bank row of the example leaves open. */
  datatype Receipt = Receipt(utr: string, narration: string, direction: Direction, valueDate: Option<int>)

  function BankRow(c: Receipt): Event {
    Row(Bank, "1", if c.direction == Credit then BankCredit else BankDebit, c.direction, "", "", c.utr, "", c.narration).(valueDate := c.valueDate)
  }

  /** A credit on the day of the settlement. */
  function Received(utr: string, narration: string): Receipt {
    Receipt(utr, narration, Credit, Some(0))
  }

  predicate InWindow(c: Receipt) {
    c.valueDate.Some? && 0 <= c.valueDate.value <= 3
  }

  /** Found by the search, or else by the settlement's reference. */
  predicate Findable(c: Receipt) {
    (c.direction == Credit && InWindow(c)) || c.utr == "U"
  }

  const DEBIT_LINE: Event := Row(Erp, "J:1", ErpJournalLine, Debit, "S", "S", "", "110000", "")
  const CREDIT_LINE: Event := Row(Erp, "J:2", ErpJournalLine, Credit, "S", "S", "", "120000", "")
  const NET_ROW: Event := Row(Gateway, "1", EventType.Settlement, Credit, "U", "S", "", "", "")
  const PAYMENT_ROW: Event := Row(Gateway, "2", Payment, Credit, "", "S", "", "", "")

  /** The shipped policy, with the required checks left open. */
  function PolicyWith(required: set<CheckCode>): Policy {
    Policy("p@1", "INR", 0, 3, 0, 0, 0, Signs(1, -1, -1, -1, 1, -1),
           Role({"110000"}, Debit), Role({"120000"}, Credit), Role({"510000"}, Debit), Role({"140000"}, Debit),
           GroupingPolicy(12, 4, 2), true, required, Weights(5000, 2500, 1500, 1000), map[],
           Treatment("UNKNOWN", "HIGH", ManualReview, true))
  }

  /** A payment of 100 settled net, received in the bank under the given UTR, and posted in the ledger. */
  function Rows(c: Receipt): seq<Event> {
    [BankRow(c), DEBIT_LINE, CREDIT_LINE, NET_ROW, PAYMENT_ROW]
  }

  function BatchWith(c: Receipt, required: set<CheckCode>): Batch {
    Batch("r", Scope("m", "INR"), Rows(c), PolicyWith(required))
  }

  // ---- order --------------------------------------------------------------------------------

  lemma {:induction false} SourcesAscend(s: SourceType, x: string, t: SourceType, y: string)
    requires (s == Bank && t != Bank) || (s == Erp && t == Gateway)
    ensures Less(EventId("r", s, x), EventId("r", t, y))
  {
    var a, b := IdSuffix(s, x), IdSuffix(t, y);
    assert a == ":" + a[1..] && b == ":" + b[1..];
    assert a[1..][0] == SourceName(s)[0] && b[1..][0] == SourceName(t)[0];
    assert Less(a[1..], b[1..]);
    SharedPrefix(":", a[1..], b[1..]);
    SharedPrefix("r", a, b);
  }

  lemma {:induction false} SameSourceAscends(s: SourceType, x: string, y: string)
    requires Less(x, y)
    ensures Less(EventId("r", s, x), EventId("r", s, y))
  {
    var prefix := "r" + (":" + (SourceName(s) + ":"));
    assert EventId("r", s, x) == prefix + x && EventId("r", s, y) == prefix + y;
    SharedPrefix(prefix, x, y);
  }

  lemma {:induction false} LinesAscend()
    ensures Less("J:1", "J:2")
  {
    SharedPrefix("J:", "1", "2");
    assert "J:" + "1" == "J:1" && "J:" + "2" == "J:2";
  }

  lemma OnesAscend()
    ensures Less("1", "2")
  {
  }

  lemma {:induction false} RowsAreOrdered(c: Receipt)
    ensures Ordered(Rows(c))
  {
    hide EventId, Less;
    SourcesAscend(Bank, "1", Erp, "J:1");
    SourcesAscend(Bank, "1", Erp, "J:2");
    SourcesAscend(Bank, "1", Gateway, "1");
    SourcesAscend(Bank, "1", Gateway, "2");
    SourcesAscend(Erp, "J:1", Gateway, "1");
    SourcesAscend(Erp, "J:1", Gateway, "2");
    SourcesAscend(Erp, "J:2", Gateway, "1");
    SourcesAscend(Erp, "J:2", Gateway, "2");
    LinesAscend();
    SameSourceAscends(Erp, "J:1", "J:2");
    OnesAscend();
    SameSourceAscends(Gateway, "1", "2");
    var rows := Rows(c);
    assert rows[0].eventId == EventId("r", Bank, "1") && rows[1].eventId == EventId("r", Erp, "J:1")
        && rows[2].eventId == EventId("r", Erp, "J:2") && rows[3].eventId == EventId("r", Gateway, "1")
        && rows[4].eventId == EventId("r", Gateway, "2");
  }

  // ---- selections ---------------------------------------------------------------------------

  function If(b: bool, e: Event): seq<Event> { if b then [e] else [] }

  lemma {:induction false} SelectCons(e: Event, s: seq<Event>, k: Criterion)
    ensures Select([e] + s, k) == If(Meets(e, k), e) + Select(s, k)
  {
    hide Meets;
    assert ([e] + s)[1..] == s;
    SelectHead([e] + s, k);
  }

  lemma {:induction false} SelectPair(a: Event, b: Event, k: Criterion)
    ensures Select([a, b], k) == If(Meets(a, k), a) + If(Meets(b, k), b)
  {
    hide Meets, Select;
    SelectCons(a, [b], k);
    SelectCons(b, [], k);
    SelectNothing();
    assert [a] + [b] == [a, b] && [b] + [] == [b];
  }

  lemma {:induction false} SelectFive(a: Event, b: Event, c: Event, d: Event, e: Event, k: Criterion)
    ensures Select([a, b, c, d, e], k)
         == If(Meets(a, k), a) + (If(Meets(b, k), b) + (If(Meets(c, k), c) + Select([d, e], k)))
  {
    hide Meets, Select;
    SelectCons(a, [b, c, d, e], k);
    SelectCons(b, [c, d, e], k);
    SelectCons(c, [d, e], k);
    assert [a] + [b, c, d, e] == [a, b, c, d, e] && [b] + [c, d, e] == [b, c, d, e] && [c] + [d, e] == [c, d, e];
  }

  /** Selecting among the rows of the example. */
  lemma {:induction false} SelectRows(c: Receipt, k: Criterion)
    ensures Select(Rows(c), k)
         == If(Meets(BankRow(c), k), BankRow(c))
            + (If(Meets(DEBIT_LINE, k), DEBIT_LINE) + (If(Meets(CREDIT_LINE, k), CREDIT_LINE)
            + (If(Meets(NET_ROW, k), NET_ROW) + If(Meets(PAYMENT_ROW, k), PAYMENT_ROW))))
  {
    hide Meets, Select, Row;
    SelectFive(BankRow(c), DEBIT_LINE, CREDIT_LINE, NET_ROW, PAYMENT_ROW, k);
    SelectPair(NET_ROW, PAYMENT_ROW, k);
  }

  lemma {:induction false} GatewaySide(c: Receipt, required: set<CheckCode>)
    ensures var b := BatchWith(c, required);
      && GatewaySettlement(b, "S") == [NET_ROW, PAYMENT_ROW]
      && Select(b.events, FromSource(Gateway)) == [NET_ROW, PAYMENT_ROW]
  {
    hide EventId, Select, JournalId;
    SelectRows(c, GatewayIn(Scope("m", "INR"), "S"));
    SelectRows(c, FromSource(Gateway));
  }

  lemma {:induction false} LedgerSide(c: Receipt, required: set<CheckCode>)
    ensures ErpLines(BatchWith(c, required), "S") == [DEBIT_LINE, CREDIT_LINE]
  {
    hide EventId, Select, JournalId;
    SelectRows(c, ErpFor(Scope("m", "INR"), "S"));
  }

  lemma {:induction false} BankSide(c: Receipt, required: set<CheckCode>)
    ensures var b := BatchWith(c, required);
      && Receipts(b, 0, {}) == If(c.direction == Credit && InWindow(c), BankRow(c))
      && UtrRows(b, "U", {}) == If(c.utr == "U", BankRow(c))
  {
    hide EventId, Select, JournalId;
    SelectRows(c, ReceiptBetween(Scope("m", "INR"), 0, 3, {}));
    SelectRows(c, CarriesUtr(Scope("m", "INR"), "U", {}));
  }

  // ---- the facts ----------------------------------------------------------------------------

  lemma {:induction false} OneCandidate(row: Event)
    requires row.amount == 100
    ensures Search([row], 100, GroupingPolicy(12, 4, 2)) == GroupingResult([[row]], false)
  {
    var s, none: seq<Group> := [row], [];
    assert s[1..] == [] && ById(s) == s && Total(s) == 100;
    assert Combinations(s[1..], 0) == [[]] && Combinations(s[1..], 1) == [];
    assert Prepend(row, [[]]) == [[row]] by {
      assert [row] + [] == [row];
      assert [[]][1..] == none;
    }
    assert Combinations(s, 1) == [[row]];
    assert Hitting([[row]], 100) == [[row]] by {
      assert [[row]][1..] == none;
    }
    assert GroupsUpTo(s, 1, 100) == [[row]];
  }

  lemma {:induction false} NoCandidate()
    ensures Search([], 100, GroupingPolicy(12, 4, 2)) == GroupingResult([], false)
  {
    assert ById([]) == [] && Combinations([], 1) == [] && GroupsUpTo([], 0, 100) == [];
  }

  lemma {:induction false} JournalOfLines()
    ensures Journals([DEBIT_LINE, CREDIT_LINE]) == [[DEBIT_LINE, CREDIT_LINE]]
  {
    JournalIdRoundTrip("J", "1");
    JournalIdRoundTrip("J", "2");
    assert "J" + ":" + "1" == "J:1" && "J" + ":" + "2" == "J:2";
    hide JournalId, EventId;
    OneJournal([DEBIT_LINE, CREDIT_LINE], "J");
  }

  function FactsWith(c: Receipt): Facts {
    var row := BankRow(c);
    Facts("S", [NET_ROW, PAYMENT_ROW], If(c.utr == "U", row), If(c.utr == "U", row),
          GroupingResult(if c.direction == Credit && InWindow(c) then [[row]] else [], false), [[DEBIT_LINE, CREDIT_LINE]])
  }

  lemma {:induction false} NetOfExample()
    ensures SettlementRows([NET_ROW, PAYMENT_ROW]) == [NET_ROW]
    ensures Anchor([NET_ROW, PAYMENT_ROW]) == NET_ROW && Net([NET_ROW, PAYMENT_ROW]) == 100
    ensures ExpectedUtr([NET_ROW, PAYMENT_ROW]) == "U"
  {
    hide EventId, Select;
    SelectPair(NET_ROW, PAYMENT_ROW, OfKind({EventType.Settlement}));
  }

  /** The rule looks up exactly these facts. */
  lemma {:induction false} ExampleFacts(c: Receipt, required: set<CheckCode>)
    ensures var b := BatchWith(c, required);
      GatewaySettlement(b, "S") != [] && FactsOf(b, "S", {}) == FactsWith(c)
  {
    GatewaySide(c, required);
    LedgerSide(c, required);
    BankSide(c, required);
    NetOfExample();
    JournalOfLines();
    assert BankRow(c).amount == 100 && NET_ROW.day == 0 && NET_ROW.externalRef == "U";
    hide EventId, Row, Search, GatewaySettlement, ErpLines, Receipts, UtrRows, Anchor, Net, ExpectedUtr, Journals;
    OneCandidate(BankRow(c));
    NoCandidate();
  }

  // ---- the conditions -----------------------------------------------------------------------

  lemma {:induction false} ExamplePick(c: Receipt)
    requires Findable(c)
    ensures Pick(FactsWith(c)) == BankPick([BankRow(c)], [BankRow(c)], false, false)
  {
    hide Net, Total, EventId, Row;
  }

  lemma OneRow(p: Policy, e: Event)
    ensures Total([e]) == e.amount && SignedTotal(p, [e]) == SignedAmount(p, e)
    ensures Total([]) == 0 && SignedTotal(p, []) == 0
  {
    assert [e][1..] == [];
  }

  lemma {:induction false} GatewaySums(p: Policy, c: Receipt)
    requires p.signs.payment == 1
    ensures var f := FactsWith(c);
      ExpectedNet(p, f) == 100 && ClearingExpected(p, f) == 100 && KindTotal(f, Fee) == 0 && KindTotal(f, Tax) == 0
  {
    hide EventId, Select, Total, SignedTotal;
    SelectPair(NET_ROW, PAYMENT_ROW, NotOfKind(EventType.Settlement));
    SelectPair(NET_ROW, PAYMENT_ROW, OfKind({Payment, Refund, Adjustment}));
    SelectPair(NET_ROW, PAYMENT_ROW, OfKind({Fee}));
    SelectPair(NET_ROW, PAYMENT_ROW, OfKind({Tax}));
    OneRow(p, PAYMENT_ROW);
    assert SignedAmount(p, PAYMENT_ROW) == 100;
    assert Select([NET_ROW, PAYMENT_ROW], NotOfKind(EventType.Settlement)) == [PAYMENT_ROW];
    assert Select([NET_ROW, PAYMENT_ROW], OfKind({Payment, Refund, Adjustment})) == [PAYMENT_ROW];
  }

  lemma AccountsDiffer()
    ensures "110000" != "120000" && "110000" != "510000" && "110000" != "140000"
    ensures "120000" != "510000" && "120000" != "140000" && "510000" != "140000"
  {
    assert "110000"[1] == '1' && "120000"[1] == '2' && "140000"[1] == '4' && "110000"[0] == '1' && "510000"[0] == '5';
    assert "120000"[0] == '1' && "140000"[0] == '1';
  }

  lemma LinePosts(e: Event, account: string, direction: Direction)
    ensures Meets(e, PostedTo(Role({account}, direction))) <==> e.account == account && e.direction == direction
    ensures Meets(e, OnSide(direction)) <==> e.direction == direction
  {
  }

  /** What the two ledger lines add up to under one account and on one side. */
  lemma {:induction false} LedgerSum(account: string, direction: Direction)
    ensures Total(Select([DEBIT_LINE, CREDIT_LINE], PostedTo(Role({account}, direction))))
         == (if account == "110000" && direction == Debit then 100 else 0) + (if account == "120000" && direction == Credit then 100 else 0)
    ensures Total(Select([DEBIT_LINE, CREDIT_LINE], OnSide(direction))) == 100
  {
    SelectPair(DEBIT_LINE, CREDIT_LINE, PostedTo(Role({account}, direction)));
    SelectPair(DEBIT_LINE, CREDIT_LINE, OnSide(direction));
    LinePosts(DEBIT_LINE, account, direction);
    LinePosts(CREDIT_LINE, account, direction);
    OneRow(PolicyWith({}), DEBIT_LINE);
    OneRow(PolicyWith({}), CREDIT_LINE);
    AccountsDiffer();
    assert DEBIT_LINE.account == "110000" && DEBIT_LINE.direction == Debit && DEBIT_LINE.amount == 100;
    assert CREDIT_LINE.account == "120000" && CREDIT_LINE.direction == Credit && CREDIT_LINE.amount == 100;
    hide Row, Select, Total, Meets, SignedTotal;
  }

  lemma {:induction false} LedgerSums(c: Receipt, required: set<CheckCode>)
    ensures var f, p := FactsWith(c), PolicyWith(required);
      && SideTotal(f, Debit) == 100 && SideTotal(f, Credit) == 100
      && Posted(f, p.bankRole) == 100 && Posted(f, p.clearingRole) == 100 && Posted(f, p.feeRole) == 0 && Posted(f, p.taxRole) == 0
  {
    hide Row, Select, Total;
    AccountsDiffer();
    LedgerSum("110000", Debit);
    LedgerSum("120000", Credit);
    LedgerSum("510000", Debit);
    LedgerSum("140000", Debit);
    assert Journal(FactsWith(c)) == [DEBIT_LINE, CREDIT_LINE];
  }

  lemma {:induction false} BankConditions(c: Receipt, required: set<CheckCode>)
    requires Findable(c)
    ensures var f, p := FactsWith(c), PolicyWith(required);
      && BankPresent(f) && BankAmountAgrees(p, f) && BankUnique(f) && !IsAmbiguous(f) && !IdentifierConflict(f) && SettlementUnique(f)
      && (AllCredits(f) <==> c.direction == Credit) && (UtrAgrees(f) <==> c.utr == "U") && (DatesFit(p, f) <==> InWindow(c))
  {
    NetOfExample();
    ExamplePick(c);
    var row := BankRow(c);
    assert Total([row]) == 100;
    assert row.direction == c.direction && row.utr == c.utr && row.valueDate == c.valueDate && NET_ROW.day == 0;
    hide EventId, Row, Net, Total, Pick, SettlementRows, Anchor, ExpectedUtr;
    assert [row][0] == row;
  }

  lemma {:induction false} LedgerConditions(c: Receipt, required: set<CheckCode>)
    ensures var f, p := FactsWith(c), PolicyWith(required);
      ComponentsAgree(p, f) && ErpPresent(f) && ErpUnique(f) && Balanced(f) && RolesAgree(p, f) && !IsInvalid(f)
  {
    var f, p := FactsWith(c), PolicyWith(required);
    GatewaySums(p, c);
    LedgerSums(c, required);
    NetOfExample();
    assert Net(f.gateway) == 100 && f.journals == [[DEBIT_LINE, CREDIT_LINE]];
    hide Row, Net, SideTotal, Posted, ExpectedNet, ClearingExpected, KindTotal;
    MeetsTargets(p, f);
  }

  /** The twelve conditions that the gate guards hold; direction, reference and date are as the receipt has them. */
  lemma {:induction false} ExampleConditions(c: Receipt, required: set<CheckCode>)
    requires Findable(c)
    ensures var f, p := FactsWith(c), PolicyWith(required);
      && GuardedHold(p, f) && !IdentifierConflict(f) && HardUnique(f) && !IsAmbiguous(f) && !IsInvalid(f)
      && (AllCredits(f) <==> c.direction == Credit) && (UtrAgrees(f) <==> c.utr == "U") && (DatesFit(p, f) <==> InWindow(c))
      && (AllHold(p, f) <==> AllCredits(f) && UtrAgrees(f) && DatesFit(p, f))
      && (AllButDirection(p, f) <==> UtrAgrees(f) && DatesFit(p, f))
      && (forall code | code in FIFTEEN && code !in UNGUARDED :: Holds(p, f, code))
      && (forall r | r in Reasons(p, f) :: r in {ReferenceMismatch, BankDateOutOfRange})
  {
    var f, p := FactsWith(c), PolicyWith(required);
    BankConditions(c, required);
    LedgerConditions(c, required);
    assert f.gateway != [];
    hide FactsWith, PolicyWith, UtrAgrees, AllCredits, DatesFit;
    OnlyUnguardedOpen(p, f);
  }

  lemma {:induction false} OnlyUnguardedOpen(p: Policy, f: Facts)
    requires f.gateway != [] && GuardedHold(p, f) && !IdentifierConflict(f)
    ensures HardUnique(f) && !IsAmbiguous(f) && !IsInvalid(f) && (AllHold(p, f) <==> AllCredits(f) && UtrAgrees(f) && DatesFit(p, f))
    ensures AllButDirection(p, f) <==> UtrAgrees(f) && DatesFit(p, f)
    ensures forall code | code in FIFTEEN && code !in UNGUARDED :: Holds(p, f, code)
    ensures forall r | r in Reasons(p, f) :: r in {ReferenceMismatch, BankDateOutOfRange}
  {
    hide ComponentsAgree, BankPresent, BankAmountAgrees, AllCredits, UtrAgrees, DatesFit, BankUnique, Balanced, IsAmbiguous,
         IsInvalid, IdentifierConflict, SettlementUnique, SettlementRows, Pick, Reasons, Holds, TargetMet;
    OnlyUnguardedReasons(p, f);
    forall code | code in FIFTEEN && code !in UNGUARDED ensures Holds(p, f, code) {
      OtherConditionHolds(p, f, code);
    }
  }

  lemma {:induction false} OtherConditionHolds(p: Policy, f: Facts, code: CheckCode)
    requires f.gateway != [] && GuardedHold(p, f) && code in FIFTEEN && code !in UNGUARDED
    ensures Holds(p, f, code)
  {
    assert forall i: nat | i < 4 :: TargetMet(p, f, i);
    hide ComponentsAgree, BankPresent, BankAmountAgrees, AllCredits, UtrAgrees, DatesFit, BankUnique, Balanced, IsAmbiguous,
         IsInvalid, IdentifierConflict, SettlementUnique, SettlementRows, Pick, Reasons, TargetMet;
  }

  // ---- the run ------------------------------------------------------------------------------

  lemma {:induction false} ExampleReferences(c: Receipt, required: set<CheckCode>)
    ensures SettlementReferences(BatchWith(c, required)) == ["S"]
  {
    GatewaySide(c, required);
    assert [NET_ROW, PAYMENT_ROW][1..] == [PAYMENT_ROW] && [PAYMENT_ROW][1..] == [];
    assert NET_ROW.settlementRef == "S" && PAYMENT_ROW.settlementRef == "S";
    hide Row, Select, BatchWith;
    assert SettlementKeys([PAYMENT_ROW]) == ["S"] + SettlementKeys([]);
    assert SettlementKeys([NET_ROW, PAYMENT_ROW]) == ["S", "S"];
    assert ["S", "S"][1..] == ["S"] && ["S"][1..] == [];
    hide SettlementKeys;
    assert SortedDistinct(["S"]) == ["S"];
    assert SortedDistinct(["S", "S"]) == ["S"];
  }

  lemma OneCase(b: Batch, reference: string)
    requires GatewaySettlement(b, reference) != []
    ensures Known(b, [reference]) && Cases(b, [reference]) == [FactsOf(b, reference, {})]
  {
    hide FactsOf, GatewaySettlement;
    assert [reference][..0] == [];
    assert Cases(b, [reference]) == Cases(b, []) + [FactsOf(b, reference, ClaimedBank(Cases(b, [])))];
  }

  lemma {:induction false} ExampleRun(c: Receipt, required: set<CheckCode>)
    ensures var b := BatchWith(c, required);
      && WellFormed(b) && SettlementReferences(b) == ["S"] && Known(b, ["S"]) && Presentable(b, Cases(b, ["S"]))
      && Cases(b, ["S"]) == [FactsWith(c)]
  {
    var b := BatchWith(c, required);
    RowsAreOrdered(c);
    assert WellFormed(b) by {
      hide Ordered, EventId;
    }
    hide BatchWith, FactsWith, FactsOf, GatewaySettlement, SettlementReferences, Cases, Known, Presentable;
    ExampleReferences(c, required);
    ExampleFacts(c, required);
    OneCase(b, "S");
    InOrder(b);
    hide WellFormed, Ordered;
    CasesArePresentable(b, ["S"]);
  }

  lemma PolicyIsValid(required: set<CheckCode>)
    requires required != {}
    ensures PolicyWith(required).Valid() && PolicyWith(required).ZeroTolerance() && PolicyWith(required).StandardAccounts()
  {
  }

  ghost predicate ClearsFirst(b: Batch, similarity: Similarity)
    requires WellFormed(b)
  {
    var outcome := Outcome(b, similarity);
    outcome.Ok? && outcome.value.decisions != [] && outcome.value.decisions[0].state == AutoCleared
  }

  /** The example clears: the premises of the safety theorems are met by an actual run. */
  lemma {:induction false} ExampleClears(narration: string, similarity: Similarity)
    ensures var b := BatchWith(Received("U", narration), FIFTEEN);
      && WellFormed(b) && b.policy.Valid() && b.policy.ZeroTolerance() && b.policy.StandardAccounts() && BankRowsAreSound(b)
      && (forall e | e in b.events && e.source == Gateway :: e.kind in {Payment, Refund, Fee, Tax, Adjustment, EventType.Settlement})
      && ClearsFirst(b, similarity)
  {
    var b, f := BatchWith(Received("U", narration), FIFTEEN), FactsWith(Received("U", narration));
    ExampleShape(Received("U", narration), FIFTEEN);
    hide FactsWith, BatchWith, Known, Presentable, Cases, SettlementReferences, AllHold, WellFormed, Kernel, BankRowsAreSound,
         Holds, Reasons, HardUnique, IsAmbiguous, IsInvalid, AllCredits, DatesFit, FIFTEEN, CaseLevel, Outcome, PolicyWith;
    ExampleRun(Received("U", narration), FIFTEEN);
    ExampleConditions(Received("U", narration), FIFTEEN);
    NoReasonsLeft(b.policy, f);
    ProvedExactlyWhenUnopposed(b.runId, b.policy, f, similarity);
    KernelIsTotalHere(b, similarity);
    FirstDecision(b, f, similarity);
  }

  lemma {:induction false} ExampleShape(c: Receipt, required: set<CheckCode>)
    requires required != {}
    ensures var b, f := BatchWith(c, required), FactsWith(c);
      && BankRowsAreSound(b) && b.policy == PolicyWith(required) && b.policy.required == required && b.policy.bankTolerance == 0
      && b.policy.autoClear && b.policy.Valid() && b.policy.ZeroTolerance() && b.policy.StandardAccounts()
      && f.gateway != [] && (forall g | g in f.journals :: g != [])
      && (forall e | e in b.events && e.source == Gateway :: e.kind in {Payment, Refund, Fee, Tax, Adjustment, EventType.Settlement})
  {
    PolicyIsValid(required);
    hide EventId;
  }

  lemma {:induction false} NoReasonsLeft(p: Policy, f: Facts)
    requires f.gateway != [] && p.bankTolerance == 0 && (forall g | g in f.journals :: g != []) && AllHold(p, f)
    ensures Reasons(p, f) == [] && AllCredits(f)
  {
    ExplanationsAreComplete(p, f);
    hide Reasons, AllButDirection, AllCredits;
  }

  lemma {:induction false} KernelIsTotalHere(b: Batch, similarity: Similarity)
    requires WellFormed(b) && b.policy.Valid() && b.policy.required == FIFTEEN
    requires Known(b, SettlementReferences(b)) && Presentable(b, AllCases(b))
    ensures Outcome(b, similarity) == Ok(Kernel(b, similarity))
  {
    assert UNGUARDED <= FIFTEEN;
    hide Outcome, Kernel, WellFormed, Cases, Known, Presentable, FIFTEEN, UNGUARDED;
    KernelIsTotal(b, similarity);
  }

  lemma {:induction false} FirstDecision(b: Batch, f: Facts, similarity: Similarity)
    requires Known(b, SettlementReferences(b)) && Presentable(b, AllCases(b)) && AllCases(b) == [f] && b.policy.autoClear
    requires f.gateway != [] && CaseLevel(b.runId, b.policy, f, similarity) == Proved
    ensures Kernel(b, similarity).decisions != [] && Kernel(b, similarity).decisions[0].state == AutoCleared
  {
    hide SettlementReferences, Known, OrphanBank, OrphanErp, SettlementProposal, Cases, Level;
    ProposalListParts(b, AllCases(b), similarity, 0);
  }

  /** A receipt that fails the one given condition: a debit, a foreign reference, or a late value date. */
  function Failing(code: CheckCode): Receipt {
    match code
    case BankReceiptDirection => Receipt("U", "", Debit, Some(0))
    case BankReceiptReference => Receipt("X", "", Credit, Some(0))
    case _ => Receipt("U", "", Credit, Some(10))
  }

  lemma UnguardedConditions(p: Policy, f: Facts)
    requires f.gateway != []
    ensures BankReceiptDirection in FIFTEEN && BankReceiptReference in FIFTEEN && BankReceiptDate in FIFTEEN
    ensures Holds(p, f, BankReceiptDirection) == AllCredits(f) && Holds(p, f, BankReceiptReference) == UtrAgrees(f)
    ensures Holds(p, f, BankReceiptDate) == DatesFit(p, f)
  {
    hide AllCredits, UtrAgrees, DatesFit;
  }

  /** Each of the three unguarded checks is needed: under any policy that requires hard checks but not this one, the
      gate proves a settlement that fails it, and the kernel raises on the whole batch. */
  lemma {:induction false} EachUnguardedCheckIsNeeded(code: CheckCode, required: set<CheckCode>, similarity: Similarity)
    requires code in UNGUARDED && code !in required && required != {} && required <= FIFTEEN
    ensures var b := BatchWith(Failing(code), required);
      && WellFormed(b) && BankRowsAreSound(b) && b.policy.Valid() && b.policy.required == required
      && Outcome(b, similarity) == Err(Raised)
  {
    var c := Failing(code);
    ExampleShape(c, required);
    hide FactsWith, BatchWith, Known, Presentable, Cases, SettlementReferences, AllHold, WellFormed, UNGUARDED, Failing, FIFTEEN, PolicyWith,
         BankRowsAreSound, CaseLevel, Outcome;
    ExampleRun(c, required);
    FailingIsProved(code, required, similarity);
    OneUnderProvedRaises(BatchWith(c, required), FactsWith(c), similarity);
  }

  lemma {:induction false} FailingIsProved(code: CheckCode, required: set<CheckCode>, similarity: Similarity)
    requires code in UNGUARDED && code !in required && required != {} && required <= FIFTEEN
    ensures var b, f := BatchWith(Failing(code), required), FactsWith(Failing(code));
      f.gateway != [] && CaseLevel(b.runId, b.policy, f, similarity) == Proved && !AllHold(b.policy, f)
  {
    var c := Failing(code);
    var b, f := BatchWith(c, required), FactsWith(c);
    FailsOnly(code);
    ExampleShape(c, required);
    hide FactsWith, BatchWith, AllHold, Holds, Reasons, UNGUARDED, Failing, HardUnique, IsAmbiguous, IsInvalid, AllCredits, UtrAgrees, DatesFit,
         FIFTEEN, PolicyWith, BankRowsAreSound, Findable, InWindow, AllButDirection, GuardedHold, IdentifierConflict, CaseLevel;
    ExampleConditions(c, required);
    forall other | other in required ensures other in FIFTEEN && Holds(b.policy, f, other) {
      OthersHold(b.policy, f, c, code, other);
    }
    ProvedExactly(b.runId, b.policy, f, similarity);
    assert Provable(b.runId, b.policy, f, similarity);
  }

  lemma {:induction false} OneUnderProvedRaises(b: Batch, f: Facts, similarity: Similarity)
    requires WellFormed(b) && b.policy.Valid() && Known(b, SettlementReferences(b)) && Presentable(b, AllCases(b)) && AllCases(b) == [f]
    requires f.gateway != [] && CaseLevel(b.runId, b.policy, f, similarity) == Proved && !AllHold(b.policy, f)
    ensures Outcome(b, similarity) == Err(Raised)
  {
    hide Known, Presentable, Cases, SettlementReferences, AllHold, WellFormed, CaseLevel, Kernel, Accepted;
    RaisesWhenUnderProved(b, similarity);
    assert AllCases(b)[0] == f;
  }

  /** The receipt fails the given condition and no other. */
  lemma FailsOnly(code: CheckCode)
    requires code in UNGUARDED
    ensures var c := Failing(code);
      && Findable(c) && (c.direction == Credit <==> code != BankReceiptDirection)
      && (c.utr == "U" <==> code != BankReceiptReference) && (InWindow(c) <==> code != BankReceiptDate)
  {
  }

  lemma {:induction false} OthersHold(p: Policy, f: Facts, c: Receipt, code: CheckCode, other: CheckCode)
    requires f.gateway != [] && code in UNGUARDED && other in FIFTEEN && other != code
    requires forall x | x in FIFTEEN && x !in UNGUARDED :: Holds(p, f, x)
    requires AllCredits(f) <==> code != BankReceiptDirection
    requires UtrAgrees(f) <==> code != BankReceiptReference
    requires DatesFit(p, f) <==> code != BankReceiptDate
    ensures Holds(p, f, other)
  {
    hide Holds, FIFTEEN, AllCredits, UtrAgrees, DatesFit, UNGUARDED;
    if other in UNGUARDED {
      UnguardedCodes(other);
      UnguardedConditions(p, f);
    }
  }

  lemma UnguardedCodes(code: CheckCode)
    requires code in UNGUARDED
    ensures code == BankReceiptDirection || code == BankReceiptReference || code == BankReceiptDate
  {
  }

  /** Is there no well-formed batch on which the kernel raises under a policy that requires these checks? */
  ghost predicate NeverRaises(required: set<CheckCode>) {
    forall b: Batch, similarity: Similarity | WellFormed(b) && b.policy.Valid() && b.policy.required == required ::
      Outcome(b, similarity).Ok?
  }

  lemma {:induction false} KernelNeverRaises(b: Batch, similarity: Similarity)
    requires WellFormed(b) && b.policy.Valid() && UNGUARDED <= b.policy.required
    ensures Outcome(b, similarity).Ok?
  {
    hide WellFormed, Outcome, UNGUARDED, Kernel, Cases, SettlementReferences, Presentable, Known;
    InOrder(b);
    ReferencesAreKnown(b);
    CasesArePresentable(b, SettlementReferences(b));
    KernelIsTotal(b, similarity);
  }

  /** The raise as a matter of policy: of the policies that require some of the fifteen hard checks and nothing else,
      those under which no well-formed batch makes the kernel raise are the ones that require all three. */
  lemma {:induction false} NeverRaisesExactly(required: set<CheckCode>)
    requires required != {} && required <= FIFTEEN
    ensures NeverRaises(required) <==> UNGUARDED <= required
  {
    hide WellFormed, Outcome, FIFTEEN, UNGUARDED, Kernel;
    if UNGUARDED <= required {
      forall b: Batch, similarity: Similarity | WellFormed(b) && b.policy.Valid() && b.policy.required == required
        ensures Outcome(b, similarity).Ok?
      {
        KernelNeverRaises(b, similarity);
      }
    } else {
      var code :| code in UNGUARDED && code !in required;
      var similarity: Similarity := (reference, text) => 0.0;
      EachUnguardedCheckIsNeeded(code, required, similarity);
      assert Outcome(BatchWith(Failing(code), required), similarity).Err?;
    }
  }

  /** The silent failure happens: a debit row with the settlement's reference, amount and day is picked by the
      fall-back; the case is not proved, has no reason, and its exception is filed as unresolved. */
  lemma {:induction false} DebitFailsSilently(similarity: Similarity)
    ensures var b, f := BatchWith(Failing(BankReceiptDirection), FIFTEEN), FactsWith(Failing(BankReceiptDirection));
      && WellFormed(b) && BankRowsAreSound(b) && b.policy.Valid() && b.policy.ZeroTolerance()
      && SettlementReferences(b) == ["S"] && Known(b, ["S"]) && AllCases(b) == [f] && f.gateway != []
      && Reasons(b.policy, f) == [] && CaseLevel(b.runId, b.policy, f, similarity) != Proved
      && FiledAsUnresolved(b.runId, b.policy, f, similarity)
  {
    hide FactsWith, BatchWith, Known, Presentable, Cases, SettlementReferences, AllHold, WellFormed, Holds, Reasons,
         HardUnique, IsAmbiguous, IsInvalid, AllCredits, UtrAgrees, DatesFit, FIFTEEN, PolicyWith, BankRowsAreSound, AllButDirection,
         CaseLevel, FiledAsUnresolved, UNGUARDED, Failing, Findable, InWindow, FailsSilently;
    var c := Failing(BankReceiptDirection);
    var b, f := BatchWith(c, FIFTEEN), FactsWith(c);
    assert BankReceiptDirection in UNGUARDED && BankReceiptPresent in FIFTEEN by { DirectionIsUnguarded(); }
    FailsOnly(BankReceiptDirection);
    ExampleShape(c, FIFTEEN);
    ExampleRun(c, FIFTEEN);
    ExampleConditions(c, FIFTEEN);
    SilentExactly(b.runId, b.policy, f, similarity);
    SilenceMeans(b.runId, b.policy, f, similarity);
  }

  lemma DirectionIsUnguarded()
    ensures BankReceiptDirection in UNGUARDED && BankReceiptPresent in FIFTEEN
  {
  }

  lemma SilenceMeans(runId: string, p: Policy, f: Facts, similarity: Similarity)
    requires f.gateway != []
    ensures FailsSilently(runId, p, f, similarity) <==> Reasons(p, f) == [] && CaseLevel(runId, p, f, similarity) != Proved
  {
    hide Reasons, CaseLevel;
  }

  /** When the policy requires the narration check, two receipts that differ only in narration can be told
      apart: the one whose narration matches clears and the other does not. */
  lemma {:induction false} NarrationTellsApart()
    ensures var required := FIFTEEN + {Support(NarrationFeature)};
      var similarity: Similarity := (reference, text) => if text == "S" then 1.0 else 0.0;
      var p := PolicyWith(required);
      && CaseLevel("r", p, FactsWith(Received("U", "S")), similarity) == Proved
      && CaseLevel("r", p, FactsWith(Received("U", "")), similarity) != Proved
  {
    var required := FIFTEEN + {Support(NarrationFeature)};
    var similarity: Similarity := (reference, text) => if text == "S" then 1.0 else 0.0;
    var p := PolicyWith(required);
    MatchingNarration("S", required, similarity);
    MatchingNarration("", required, similarity);
    ExampleShape(Received("U", "S"), required);
    ExampleShape(Received("U", ""), required);
    hide FactsWith, PolicyWith, AllHold, CaseLevel, NarrationIsPerfect, FIFTEEN, HardUnique, IsAmbiguous, IsInvalid, AllCredits,
         DatesFit, Holds, Reasons;
    ExampleConditions(Received("U", "S"), required);
    ExampleConditions(Received("U", ""), required);
    FifteenAndNarration("r", p, FactsWith(Received("U", "S")), similarity);
    FifteenAndNarration("r", p, FactsWith(Received("U", "")), similarity);
  }

  lemma {:induction false} MatchingNarration(narration: string, required: set<CheckCode>, similarity: Similarity)
    requires similarity("S", narration) == if narration == "S" then 1.0 else 0.0
    ensures NarrationIsPerfect(PolicyWith(required), FactsWith(Received("U", narration)), similarity) <==> narration == "S"
  {
    ExamplePick(Received("U", narration));
    var row := BankRow(Received("U", narration));
    assert row.narration == narration && JoinNarrations([row]) == narration;
    hide Row, Pick;
    assert RoundHalfEven(1000.0) == 1000 && RoundHalfEven(0.0) == 0;
  }
}
