/** The small settlement of `Example` before its journal was posted, beside an unrelated journal in the ERP file:
    the correction loop takes it from a missing posting to a proof, unless the policy's bank account is padded. */
module CorrectionExample {
  import opened Events
  import opened TextOrder
  import opened Selection
  import opened Grouping
  import opened Transforms
  import opened Ledger
  import opened Context
  import opened SettlementRule
  import opened Gate
  import opened Proof
  import opened Money
  import opened Pipeline
  import opened Drafting
  import opened ErpImport
  import opened Rerun
  import opened Correction
  import opened CorrectionLoop
  import opened CorrectionRun
  import opened ErpReimport
  import opened CorrectionImport
  import opened Readiness
  import opened PaddedAccounts
  import opened Example

  // ---- the stored run -----------------------------------------------------------------------

  const GOOD: Receipt := Received("U", "")
  const RECEIPT: Event := BankRow(GOOD)
  const OTHERS: seq<Event> := [RECEIPT, NET_ROW, PAYMENT_ROW]

  /** A journal that belongs to something else. */
  const ELSEWHERE: Slip := Slip("J", 0, "Z", "r", "m")
  const FIRST_LINE: JournalLine := JournalLine("900000", 100, "INR", Debit, "", [])
  const SECOND_LINE: JournalLine := JournalLine("900001", 100, "INR", Credit, "", [])
  const FIRST: Event := Posting(FIRST_LINE, 1, ELSEWHERE, LINEAGE)
  const SECOND: Event := Posting(SECOND_LINE, 2, ELSEWHERE, LINEAGE)
  const ERP_FILE: seq<FileRow> := [
    FileRow(2, Ledger.RowOf(FIRST_LINE, 1, "J", 0, "Z"), LINEAGE),
    FileRow(3, Ledger.RowOf(SECOND_LINE, 2, "J", 0, "Z"), LINEAGE)
  ]

  const SORTED: seq<Event> := [RECEIPT, FIRST, SECOND, NET_ROW, PAYMENT_ROW]
  const SLIP: Slip := Slip("K", 0, "S", "r2", "m")
  const OPEN_FACTS: Facts := FactsWith(GOOD).(journals := [])

  /** The shipped policy with one bank account, as given. */
  function PolicyFor(account: string): Policy {
    PolicyWith(FIFTEEN).(bankRole := Role({account}, Debit))
  }

  function OpenBatch(account: string): Batch {
    Batch("r", Scope("m", "INR"), SORTED, PolicyFor(account))
  }

  /** The journal drafted for the settlement. */
  function Draft(account: string): seq<JournalLine> {
    [ JournalLine(account, 100, "INR", Debit, "Bank receipt", Sources([RECEIPT])),
      JournalLine("120000", 100, "INR", Credit, "Gateway clearing", Sources([NET_ROW, PAYMENT_ROW])) ]
  }

  predicate IsBankAccount(account: string) {
    account in {"110000", " 110000"}
  }

  // ---- the ERP file -------------------------------------------------------------------------

  lemma {:induction false} IsTidy(line: JournalLine)
    requires line.amount == 100 && line.currency == "INR" && line.account != ""
    requires !IsSpace(line.account[0]) && !IsSpace(line.account[|line.account| - 1])
    ensures Tidy(line)
  {
    NothingToStrip(line.account);
    NothingToStrip("INR");
    assert LastPlace(100) == 1;
    assert Upper("INR") == "INR" && IsCurrency("INR");
    hide Strip, Upper, LastPlace;
  }

  lemma {:induction false} ElsewhereIsPostable()
    ensures Postable([FIRST_LINE, SECOND_LINE], ELSEWHERE)
  {
    IsTidy(FIRST_LINE);
    IsTidy(SECOND_LINE);
    NothingToStrip("J");
    NothingToStrip("Z");
    hide Strip, Tidy;
  }

  lemma {:induction false} FromAnEmptyFile()
    ensures NumberedFile(ERP_FILE) && NumberedFile([]) && IsValid([], "r", "m")
    ensures |ERP_FILE| == 2 && ERP_FILE[0].lineage == LINEAGE && ERP_FILE[1].lineage == LINEAGE
    ensures Extends(ERP_FILE, [], RowsFor([FIRST_LINE, SECOND_LINE], ELSEWHERE))
  {
    assert IsValid([], "r", "m");
    hide ParseRow, Ledger.RowOf, IsValid;
    assert RowsFor([FIRST_LINE, SECOND_LINE], ELSEWHERE) == [ERP_FILE[0].cells, ERP_FILE[1].cells];
  }

  lemma {:induction false} ErpFileReads()
    ensures NumberedFile(ERP_FILE) && IsValid(ERP_FILE, "r", "m") && ReadEvents(ERP_FILE, "r", "m") == [FIRST, SECOND]
  {
    var lines := [FIRST_LINE, SECOND_LINE];
    assert ELSEWHERE.runId == "r" && ELSEWHERE.entity == "m";
    hide ParseRow, Ledger.RowOf, IsValid, Postable, EventOfRow, Posting, ReadEvents, RowsFor, ERP_FILE, FIRST_LINE, SECOND_LINE, NumberedFile, LINEAGE, Extends;
    FromAnEmptyFile();
    ElsewhereIsPostable();
    ExtendedFileIsValid([], "r", lines, ELSEWHERE, ERP_FILE);
    ValidFileEvents(ERP_FILE, "r", "m");
    AppendedRow(lines, ELSEWHERE, ERP_FILE, [], 0);
    AppendedRow(lines, ELSEWHERE, ERP_FILE, [], 1);
  }

  lemma {:induction false} ErpEvents()
    ensures FIRST.recordId == "J:1" && SECOND.recordId == "J:2"
    ensures FIRST.eventId == EventId("r", Erp, "J:1") && SECOND.eventId == EventId("r", Erp, "J:2")
    ensures FIRST.source == Erp && SECOND.source == Erp && FIRST.externalRef == "Z" && SECOND.externalRef == "Z"
    ensures FIRST.runId == "r" && SECOND.runId == "r" && FIRST.entity == "m" && SECOND.entity == "m"
    ensures FIRST.currency == "INR" && SECOND.currency == "INR" && FIRST.valueDate == Some(0) && SECOND.valueDate == Some(0)
  {
    assert Digits(1) == "1" && Digits(2) == "2";
    assert "J" + ":" + "1" == "J:1" && "J" + ":" + "2" == "J:2";
    hide Strip, EventId;
  }

  // ---- look-ups -----------------------------------------------------------------------------

  lemma {:induction false} SameIdsSameOrder(s: seq<Event>, t: seq<Event>)
    requires Ordered(s) && |s| == |t| && forall i | 0 <= i < |s| :: s[i].eventId == t[i].eventId
    ensures Ordered(t)
  {
    hide Less;
  }

  lemma {:induction false} SortedIsOrdered()
    ensures Ordered(SORTED)
  {
    RowsAreOrdered(GOOD);
    ErpEvents();
    var rows := Rows(GOOD);
    assert rows[1].eventId == EventId("r", Erp, "J:1") && rows[2].eventId == EventId("r", Erp, "J:2");
    assert |rows| == 5 && rows[0] == RECEIPT && rows[3] == NET_ROW && rows[4] == PAYMENT_ROW;
    hide Ordered, EventId, Row, FIRST, SECOND, Rows;
    SameIdsSameOrder(rows, SORTED);
  }

  lemma {:induction false} SelectSorted(k: Criterion)
    ensures Select(SORTED, k)
         == If(Meets(RECEIPT, k), RECEIPT) + (If(Meets(FIRST, k), FIRST) + (If(Meets(SECOND, k), SECOND)
            + (If(Meets(NET_ROW, k), NET_ROW) + If(Meets(PAYMENT_ROW, k), PAYMENT_ROW))))
  {
    hide Meets, Select, Row, FIRST, SECOND;
    SelectFive(RECEIPT, FIRST, SECOND, NET_ROW, PAYMENT_ROW, k);
    SelectPair(NET_ROW, PAYMENT_ROW, k);
  }

  lemma {:induction false} SelectOthers(k: Criterion)
    ensures Select(OTHERS, k) == If(Meets(RECEIPT, k), RECEIPT) + (If(Meets(NET_ROW, k), NET_ROW) + If(Meets(PAYMENT_ROW, k), PAYMENT_ROW))
  {
    hide Meets, Select, Row;
    SelectCons(RECEIPT, [NET_ROW, PAYMENT_ROW], k);
    SelectPair(NET_ROW, PAYMENT_ROW, k);
    assert [RECEIPT] + [NET_ROW, PAYMENT_ROW] == OTHERS;
  }

  lemma {:induction false} GatewayLookUps(account: string)
    ensures GatewaySettlement(OpenBatch(account), "S") == [NET_ROW, PAYMENT_ROW]
    ensures Select(SORTED, FromSource(Gateway)) == [NET_ROW, PAYMENT_ROW]
  {
    ErpEvents();
    hide EventId, Select, FIRST, SECOND;
    SelectSorted(GatewayIn(Scope("m", "INR"), "S"));
    SelectSorted(FromSource(Gateway));
  }

  lemma {:induction false} LedgerLookUp(account: string)
    ensures ErpLines(OpenBatch(account), "S") == []
  {
    ErpEvents();
    hide EventId, Select, FIRST, SECOND;
    SelectSorted(ErpFor(Scope("m", "INR"), "S"));
  }

  lemma {:induction false} BankLookUps(account: string)
    ensures Receipts(OpenBatch(account), 0, {}) == [RECEIPT] && UtrRows(OpenBatch(account), "U", {}) == [RECEIPT]
  {
    ErpEvents();
    hide EventId, Select, FIRST, SECOND;
    SelectSorted(ReceiptBetween(Scope("m", "INR"), 0, 3, {}));
    SelectSorted(CarriesUtr(Scope("m", "INR"), "U", {}));
  }

  lemma {:induction false} OpenReferences(account: string)
    ensures SettlementReferences(OpenBatch(account)) == ["S"]
  {
    hide Row, Select, SortedDistinct, SettlementKeys, FIRST, SECOND;
    GatewayLookUps(account);
    ExampleReferences(GOOD, FIFTEEN);
    GatewaySide(GOOD, FIFTEEN);
  }

  lemma {:induction false} OpenFacts(account: string)
    ensures GatewaySettlement(OpenBatch(account), "S") != [] && FactsOf(OpenBatch(account), "S", {}) == OPEN_FACTS
  {
    NetOfExample();
    assert RECEIPT.amount == 100 && NET_ROW.day == 0 && NET_ROW.externalRef == "U";
    assert Journals([]) == [];
    hide EventId, Row, Search, GatewaySettlement, ErpLines, Receipts, UtrRows, Anchor, Net, ExpectedUtr, Journals, SORTED;
    GatewayLookUps(account);
    LedgerLookUp(account);
    BankLookUps(account);
    OneCandidate(RECEIPT);
  }

  lemma {:induction false} OpenCase(account: string)
    ensures var b := OpenBatch(account);
      && Known(b, SettlementReferences(b)) && SettlementReferences(b) == ["S"]
      && AllCases(b) == [OPEN_FACTS] && OPEN_FACTS.gateway != [] && Net(OPEN_FACTS.gateway) == 100
  {
    NetOfExample();
    hide SettlementReferences, GatewaySettlement, FactsOf, Cases, Known, Row, PolicyWith, Net, SORTED;
    OpenReferences(account);
    OpenFacts(account);
    OneCase(OpenBatch(account), "S");
  }

  // ---- the batch ----------------------------------------------------------------------------

  lemma {:induction false} SortedAfterAppending(a: Event, b: Event, c: Event, d: Event, e: Event)
    requires Ordered([a, b, c, d, e])
    ensures UniqueIds([a, d, e, b, c]) && ById([a, d, e, b, c]) == [a, b, c, d, e]
  {
    var sorted, stored := [a, b, c, d, e], [a, d, e, b, c];
    OrderedIsUnique(sorted);
    assert forall i, j | 0 <= i < j < 5 :: sorted[i].eventId != sorted[j].eventId;
    assert sorted[1].eventId != sorted[3].eventId && sorted[1].eventId != sorted[4].eventId
        && sorted[2].eventId != sorted[3].eventId && sorted[2].eventId != sorted[4].eventId
        && sorted[0].eventId != sorted[1].eventId && sorted[0].eventId != sorted[2].eventId
        && sorted[0].eventId != sorted[3].eventId && sorted[0].eventId != sorted[4].eventId
        && sorted[1].eventId != sorted[2].eventId && sorted[3].eventId != sorted[4].eventId;
    assert UniqueIds(stored);
    hide ById, Ordered, UniqueIds;
    ByIdOrdered(stored);
    ByIdMembers(stored);
    OrderedExtensional(ById(stored), sorted);
  }

  const STORED: seq<Event> := [RECEIPT, NET_ROW, PAYMENT_ROW, FIRST, SECOND]

  lemma {:induction false} StoredSorted()
    ensures UniqueIds(STORED) && ById(STORED) == SORTED
  {
    hide FIRST, SECOND, RECEIPT, NET_ROW, PAYMENT_ROW, Ordered, ById, UniqueIds;
    SortedIsOrdered();
    SortedAfterAppending(RECEIPT, FIRST, SECOND, NET_ROW, PAYMENT_ROW);
  }

  lemma {:induction false} StoredInScope()
    ensures forall e | e in STORED :: e.runId == "r" && InScope(e, Scope("m", "INR"))
  {
    ErpEvents();
    hide FIRST, SECOND, EventId;
  }

  lemma {:induction false} StoredRun(account: string)
    ensures var events := StoredEvents(OTHERS, ERP_FILE, "r", "m");
      events == STORED && UniqueIds(events) && BatchOf(events, PolicyFor(account)) == Ok(OpenBatch(account))
  {
    assert PolicyFor(account).currency == "INR";
    hide ReadEvents, FIRST, SECOND, RECEIPT, NET_ROW, PAYMENT_ROW, ERP_FILE, SORTED, ById, BatchOf, PolicyFor, UniqueIds;
    ErpFileReads();
    assert StoredEvents(OTHERS, ERP_FILE, "r", "m") == STORED;
    StoredSorted();
    StoredInScope();
    hide STORED, OTHERS, StoredEvents;
    StoredNotEmpty();
    OneScope(STORED, PolicyFor(account), "r", Scope("m", "INR"));
  }

  lemma StoredNotEmpty()
    ensures STORED != []
  {
  }

  lemma {:induction false} StoredIsIssued()
    ensures Issued("r", STORED) && FreshJournal(STORED, "K") && GatewayKinds(OPEN_FACTS.gateway)
  {
    ErpEvents();
    JournalIdRoundTrip("J", "1");
    JournalIdRoundTrip("J", "2");
    assert "J" + ":" + "1" == "J:1" && "J" + ":" + "2" == "J:2";
    hide EventId, JournalId, FIRST, SECOND;
  }

  /** The missing posting is all there is against the settlement. */
  lemma {:induction false} OnlyPostingMissing(account: string)
    ensures Reasons(PolicyFor(account), OPEN_FACTS) == [MissingErpPosting]
  {
    var f, p := FactsWith(GOOD), PolicyWith(FIFTEEN);
    assert p.bankTolerance == 0 && Findable(GOOD) && GOOD.utr == "U" && InWindow(GOOD);
    BankConditions(GOOD, FIFTEEN);
    LedgerConditions(GOOD, FIFTEEN);
    assert BankSideHolds(p, f);
    SignsAreAll(p, PolicyFor(account), Select(f.gateway, NotOfKind(EventType.Settlement)));
    assert BankSideHolds(PolicyFor(account), f) by {
      hide FactsWith, SignedTotal, Pick, Net, Total, SettlementRows, Anchor, ExpectedUtr, Select;
    }
    hide FactsWith, PolicyWith, BankSideHolds, Reasons;
    SidesIgnoreEachOther(PolicyFor(account), f, []);
    MissingPosting(PolicyFor(account), OPEN_FACTS);
  }

  lemma {:induction false} SignsAreAll(p: Policy, q: Policy, s: seq<Event>)
    requires p.signs == q.signs
    ensures SignedTotal(p, s) == SignedTotal(q, s)
  {
    if s != [] {
      SignsAreAll(p, q, s[1..]);
      assert p.Sign(s[0].kind, s[0].direction) == q.Sign(s[0].kind, s[0].direction);
    }
  }

  // ---- the draft ----------------------------------------------------------------------------

  lemma {:induction false} SortedAfterRotation(a: Event, b: Event, c: Event)
    requires Ordered([a, b, c])
    ensures ById([b, c, a]) == [a, b, c]
  {
    OrderedIsUnique([a, b, c]);
    assert [a, b, c][0].eventId != [a, b, c][1].eventId && [a, b, c][0].eventId != [a, b, c][2].eventId
        && [a, b, c][1].eventId != [a, b, c][2].eventId;
    ByIdOrdered([b, c, a]);
    ByIdMembers([b, c, a]);
    hide ById, Ordered;
    OrderedExtensional(ById([b, c, a]), [a, b, c]);
  }

  lemma DropTwo(s: seq<Event>)
    requires |s| == 5 && Ordered(s)
    ensures Ordered([s[0], s[3], s[4]])
  {
    hide Less;
  }

  lemma {:induction false} OpenMembers()
    ensures Members(OPEN_FACTS) == OTHERS
  {
    assert Findable(GOOD);
    ExamplePick(GOOD);
    assert Pick(OPEN_FACTS) == Pick(FactsWith(GOOD));
    hide ById, Ordered, EventId, Row, FIRST, SECOND;
    assert OPEN_FACTS.gateway + Pick(OPEN_FACTS).candidates + Flatten(OPEN_FACTS.journals) == [NET_ROW, PAYMENT_ROW, RECEIPT];
    SortedIsOrdered();
    DropTwo(SORTED);
    SortedAfterRotation(RECEIPT, NET_ROW, PAYMENT_ROW);
  }

  lemma {:induction false} OpenCredits()
    ensures BankCredits(OTHERS) == [RECEIPT]
  {
    hide EventId, Select;
    SelectOthers(FromSource(Bank));
    SelectCons(RECEIPT, [], OnSide(Credit));
    SelectNothing();
    assert [RECEIPT] + [] == [RECEIPT];
    assert Select(OTHERS, FromSource(Bank)) == [RECEIPT];
  }

  lemma {:induction false} OpenKinds()
    ensures OfThese(OTHERS, CLEARED) == [NET_ROW, PAYMENT_ROW]
    ensures OfThese(OTHERS, {Fee}) == [] && OfThese(OTHERS, {Tax}) == []
  {
    hide EventId, Select;
    SelectOthers(FromSource(Gateway));
    SelectPair(NET_ROW, PAYMENT_ROW, OfKind(CLEARED));
    SelectPair(NET_ROW, PAYMENT_ROW, OfKind({Fee}));
    SelectPair(NET_ROW, PAYMENT_ROW, OfKind({Tax}));
    assert Select(OTHERS, FromSource(Gateway)) == [NET_ROW, PAYMENT_ROW];
  }

  lemma OnlyAccount(account: string)
    ensures FirstAccount({account}) == account
  {
  }

  lemma {:induction false} OpenDraft(account: string)
    ensures RolesHaveAccounts(PolicyFor(account)) && Draftable(PolicyFor(account), Members(OPEN_FACTS))
    ensures DraftLines(PolicyFor(account), Members(OPEN_FACTS)) == Draft(account)
  {
    var p := PolicyFor(account);
    assert RECEIPT.amount == 100 && p.currency == "INR" && p.bankRole == Role({account}, Debit) && p.clearingRole == Role({"120000"}, Credit);
    assert RolesHaveAccounts(p) by {
      assert "510000" in p.feeRole.accounts && "140000" in p.taxRole.accounts;
    }
    assert Total([]) == 0;
    OnlyAccount(account);
    OnlyAccount("120000");
    hide Row, Members, BankCredits, OfThese, OPEN_FACTS, CLEARED, FirstAccount, Total, Sources, PolicyFor, RolesHaveAccounts;
    OpenMembers();
    OpenCredits();
    OpenKinds();
  }

  lemma {:induction false} PolicyIsUsable(account: string)
    requires IsBankAccount(account)
    ensures LoopPolicy(PolicyFor(account)) && NamedAccounts(PolicyFor(account))
  {
    assert BankReceiptPresent in FIFTEEN;
    PolicyIsValid(FIFTEEN);
    assert account != "" && account != "510000" && account != "140000" by {
      assert account[1] == '1' && account[0] in {'1', ' '} && "140000"[1] == '4' && "510000"[0] == '5';
    }
    var p := PolicyFor(account);
    assert account in p.bankRole.accounts && "120000" in p.clearingRole.accounts
        && "510000" in p.feeRole.accounts && "140000" in p.taxRole.accounts;
    hide FIFTEEN;
  }

  // ---- correctable --------------------------------------------------------------------------

  lemma {:induction false} FirstListedAlone(order: seq<Reason>, reason: Reason)
    requires reason in order
    ensures FirstListed(order, [reason]) == reason
  {
    if order[0] != reason {
      FirstListedAlone(order[1..], reason);
    }
  }

  lemma {:induction false} OpenCaseIsCorrectable(account: string)
    requires IsBankAccount(account)
    ensures var events := StoredEvents(OTHERS, ERP_FILE, "r", "m");
      && BatchOf(events, PolicyFor(account)) == Ok(OpenBatch(account))
      && Correctable(events, PolicyFor(account), 0, SLIP) && DraftOf(events, PolicyFor(account), 0, SLIP) == Draft(account)
  {
    assert SLIP.entity == OpenBatch(account).scope.entity && SLIP.reference == ["S"][0] && SLIP.journalId == "K";
    assert OpenBatch(account).runId == "r" && OpenBatch(account).policy == PolicyFor(account) && MissingErpPosting in PRIORITY;
    hide OTHERS, ERP_FILE, StoredEvents, PolicyFor, OpenBatch, OPEN_FACTS, SLIP, PRIORITY, FirstListed, BatchOf, LoopPolicy, NamedAccounts, Issued,
         FreshJournal, UniqueIds, GatewayKinds, Known, Cases, Members, Draftable, DraftLines, Reasons, SettlementReferences, IsBankAccount,
         RECEIPT, NET_ROW, PAYMENT_ROW, FIRST, SECOND, STORED, Draft, RolesHaveAccounts;
    FirstListedAlone(PRIORITY, MissingErpPosting);
    StoredRun(account);
    PolicyIsUsable(account);
    StoredIsIssued();
    OpenCase(account);
    OpenDraft(account);
    OnlyPostingMissing(account);
  }

  // ---- start to finish ----------------------------------------------------------------------

  /** The batch settles the one reference, and proves it. */
  ghost predicate ProvedNext(next: Result<Batch, Refusal>, reference: string, similarity: Similarity) {
    && next.Ok? && SettlementReferences(next.value) == [reference] && Known(next.value, [reference])
    && var f := Cases(next.value, [reference])[0];
      f.gateway != [] && CaseLevel(next.value.runId, next.value.policy, f, similarity) == Proved
  }

  lemma {:induction false} StillOpen(runId: string, p: Policy, f: Facts, similarity: Similarity)
    requires f.gateway != [] && p.required == FIFTEEN && p.bankTolerance == 0 && Reasons(p, f) == [MissingErpPosting] && f.journals == []
    ensures CaseLevel(runId, p, f, similarity) != Proved
  {
    hide Reasons, CaseLevel, FIFTEEN;
    ProvedExactlyWhenUnopposed(runId, p, f, similarity);
  }

  lemma {:induction false} OneDayIsReady(a: Event, b: Event, c: Event, d: Event, e: Event, day: int)
    requires a.source == Bank && b.source == Gateway && d.source == Erp
    requires forall x | x in [a, b, c, d, e] :: DateOf(x) == day && x.entity == "m" && x.currency == "INR"
    ensures CrossSourceReady([a, b, c, d, e]) && DayFits([a, b, c, d, e], day)
  {
    var events := [a, b, c, d, e];
    assert events[0] in events && events[1] in events && events[3] in events;
    assert a in events && b in events && d in events;
    assert Present(events, Bank) && Present(events, Gateway) && Present(events, Erp);
    hide DateOf, Present;
    forall source: SourceType ensures Present(events, source) {
      match source {
        case Gateway =>
        case Bank =>
        case Erp =>
      }
    }
    assert !TooLong(events);
    hide CrossSourceReady;
    ReadyExactly(events);
  }

  lemma {:induction false} StoredDates()
    ensures forall x | x in STORED :: DateOf(x) == 0 && x.entity == "m" && x.currency == "INR"
    ensures RECEIPT.source == Bank && NET_ROW.source == Gateway && FIRST.source == Erp && SLIP.day == 0
  {
    ErpEvents();
    hide FIRST, SECOND, EventId;
  }

  lemma {:induction false} StoredIsReady()
    ensures var events := StoredEvents(OTHERS, ERP_FILE, "r", "m");
      CrossSourceReady(events) && DayFits(events, SLIP.day)
  {
    hide ReadEvents, FIRST, SECOND, RECEIPT, NET_ROW, PAYMENT_ROW, ERP_FILE, SLIP, CrossSourceReady, DayFits, DateOf;
    ErpFileReads();
    assert StoredEvents(OTHERS, ERP_FILE, "r", "m") == STORED;
    StoredDates();
    OneDayIsReady(RECEIPT, NET_ROW, PAYMENT_ROW, FIRST, SECOND, 0);
  }

  lemma {:induction false} DraftIsPostable(account: string)
    requires IsBankAccount(account)
    ensures Postable(AllUnpadded(Draft(account)), SLIP) && (account == "110000" ==> Postable(Draft(account), SLIP))
    ensures account == " 110000" ==> !Trimmed(account)
  {
    assert Strip(" 110000") == "110000" by {
      assert " 110000"[1..] == "110000";
      NothingToStrip("110000");
    }
    NothingToStrip("110000");
    NothingToStrip("120000");
    NothingToStrip("K");
    NothingToStrip("S");
    var lines := Draft(account);
    IsTidy(JournalLine("110000", 100, "INR", Debit, "Bank receipt", lines[0].links));
    IsTidy(lines[1]);
    hide Strip, Tidy, Sources;
  }

  /** The loop, start to finish: the run is ready and the settlement open before the correction; afterwards,
      however the corrected file is numbered and hashed, the run is ready and the settlement PROVED. */
  lemma {:induction false} CorrectionProvesTheCase(lineages: map<string, Lineage>, file: seq<FileRow>, similarity: Similarity)
    requires Extends(file, ERP_FILE, RowsFor(Draft("110000"), SLIP))
    ensures CorrectableFile(OTHERS, ERP_FILE, "r", PolicyFor("110000"), 0, SLIP)
    ensures OPEN_FACTS.gateway != [] && CaseLevel("r", PolicyFor("110000"), OPEN_FACTS, similarity) != Proved
    ensures |ReadEvents(ERP_FILE, "r", "m")| <= |file|
    ensures CrossSourceReady(StoredEvents(OTHERS, ERP_FILE, "r", "m")) && CrossSourceReady(Imported(OTHERS, ERP_FILE, "r", SLIP, lineages, file))
    ensures ProvedNext(BatchOf(Imported(OTHERS, ERP_FILE, "r", SLIP, lineages, file), PolicyFor("110000")), "S", similarity)
  {
    var account := "110000";
    var p := PolicyFor(account);
    assert IsBankAccount(account) && SLIP.entity == "m" && OpenBatch(account).policy == p && OpenBatch(account).runId == "r";
    assert p.required == FIFTEEN && p.bankTolerance == 0 && OPEN_FACTS.journals == [];
    hide FIFTEEN, OTHERS, ERP_FILE, StoredEvents, PolicyFor, OpenBatch, OPEN_FACTS, SLIP, BatchOf, Known, Cases, Reasons, SettlementReferences, Correctable,
         CaseLevel, OthersFollow, Presentable, Draft, NumberedFile, IsValid, ReadEvents, Extends, RowsFor, Postable, Imported, Again, AllUnpadded,
         CrossSourceReady, DayFits, IsBankAccount, DraftOf;
    ErpFileReads();
    OpenCaseIsCorrectable(account);
    DraftIsPostable(account);
    assert CorrectableFile(OTHERS, ERP_FILE, "r", p, 0, SLIP);
    assert Appended(OTHERS, ERP_FILE, "r", p, 0, SLIP) == RowsFor(Draft(account), SLIP);
    OpenCase(account);
    OnlyPostingMissing(account);
    StillOpen("r", p, OPEN_FACTS, similarity);
    StoredIsReady();
    hide CorrectableFile, Appended;
    CorrectedImportIsReady(OTHERS, ERP_FILE, "r", p, 0, SLIP, lineages, file);
    CorrectionClosesItsCase(OTHERS, ERP_FILE, "r", p, 0, SLIP, lineages, file, similarity);
  }

  /** The same settlement under the account " 110000", which a policy may list: the missing posting is again its only
      reason, yet the corrected run reads account "110000" and leaves it open. */
  lemma {:induction false} PaddedAccountStaysOpen(lineages: map<string, Lineage>, file: seq<FileRow>, similarity: Similarity)
    requires Extends(file, ERP_FILE, RowsFor(Draft(" 110000"), SLIP))
    ensures PolicyFor(" 110000").Valid() && OPEN_FACTS.gateway != [] && Reasons(PolicyFor(" 110000"), OPEN_FACTS) == [MissingErpPosting]
    ensures |ReadEvents(ERP_FILE, "r", "m")| <= |file|
    ensures var next := BatchOf(Imported(OTHERS, ERP_FILE, "r", SLIP, lineages, file), PolicyFor(" 110000"));
      && next.Ok? && Known(next.value, ["S"]) && Cases(next.value, ["S"])[0].gateway != []
      && CaseLevel(next.value.runId, PolicyFor(" 110000"), Cases(next.value, ["S"])[0], similarity) != Proved
  {
    var account := " 110000";
    var p := PolicyFor(account);
    assert IsBankAccount(account) && SLIP.entity == "m" && OpenBatch(account).policy == p && OpenBatch(account).runId == "r";
    assert p.bankRole.accounts == {account};
    PolicyIsUsable(account);
    hide FIFTEEN, OTHERS, ERP_FILE, StoredEvents, PolicyFor, OpenBatch, OPEN_FACTS, SLIP, BatchOf, Known, Cases, Reasons, SettlementReferences, Correctable,
         CaseLevel, Draft, NumberedFile, IsValid, ReadEvents, Extends, RowsFor, Postable, Imported, AllUnpadded, IsBankAccount, DraftOf, NamedAccounts, Trimmed, Net;
    ErpFileReads();
    OpenCaseIsCorrectable(account);
    DraftIsPostable(account);
    OpenCase(account);
    OnlyPostingMissing(account);
    assert CorrectablePadded(OTHERS, ERP_FILE, "r", p, 0, SLIP);
    assert StoredDraft(OTHERS, ERP_FILE, "r", p, 0, SLIP) == Draft(account);
    hide CorrectablePadded, StoredDraft;
    PaddedAccountsStayOpen(OTHERS, ERP_FILE, "r", p, 0, SLIP, lineages, file, similarity);
  }
}
