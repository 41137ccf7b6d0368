/** A settlement posted twice: reversing one of its journals cannot clear it. */
module ReversalExample {
  import opened Events
  import opened TextOrder
  import opened Selection
  import opened Context
  import opened SettlementRule
  import opened Gate
  import opened Proof
  import opened Pipeline
  import opened Ledger
  import opened Rerun
  import opened CorrectionLoop
  import opened CorrectionRun
  import opened RelatedCase
  import opened Example

  const SECOND_DEBIT: Event := Row(Erp, "K:1", ErpJournalLine, Debit, "S", "S", "", "110000", "")
  const SECOND_CREDIT: Event := Row(Erp, "K:2", ErpJournalLine, Credit, "S", "S", "", "120000", "")
  const POSTED_TWICE: seq<Event> := [
    BankRow(Received("U", "")), DEBIT_LINE, CREDIT_LINE, SECOND_DEBIT, SECOND_CREDIT, NET_ROW, PAYMENT_ROW
  ]
  const POLICY: Policy := PolicyWith(FIFTEEN)

  /** The second journal with its sides swapped, to be posted under the settlement's reference. */
  const REVERSAL: seq<JournalLine> := [
    JournalLine("110000", 100, "INR", Credit, "Reverse duplicate posting K", []),
    JournalLine("120000", 100, "INR", Debit, "Reverse duplicate posting K", [])
  ]
  const REVERSAL_SLIP: Slip := Slip("R", 0, "S", "r2", "m")

  lemma {:induction false} RecordsTellApart(runId: string, s: seq<Event>)
    requires Issued(runId, s)
    requires forall i, j | 0 <= i < j < |s| :: s[i].source != s[j].source || s[i].recordId != s[j].recordId
    ensures UniqueIds(s)
  {
    hide IdSuffix;
    forall i, j | 0 <= i < j < |s| ensures s[i].eventId != s[j].eventId {
      assert s[i] in s && s[j] in s;
      if s[i].eventId == s[j].eventId {
        assert s[i].eventId[|runId|..] == IdSuffix(s[i].source, s[i].recordId);
        assert s[j].eventId[|runId|..] == IdSuffix(s[j].source, s[j].recordId);
        IdSuffixIsInjective(s[i].source, s[i].recordId, s[j].source, s[j].recordId);
      }
    }
  }

  lemma {:induction false} RowsAreApart()
    ensures Issued("r", POSTED_TWICE) && UniqueIds(POSTED_TWICE)
  {
    RecordsDiffer();
    hide EventId;
    assert Issued("r", POSTED_TWICE);
    hide Row, Issued;
    RecordsTellApart("r", POSTED_TWICE);
  }

  lemma RecordsDiffer()
    ensures forall i, j | 0 <= i < j < |POSTED_TWICE| ::
      POSTED_TWICE[i].source != POSTED_TWICE[j].source || POSTED_TWICE[i].recordId != POSTED_TWICE[j].recordId
  {
    hide EventId;
    assert "J:1"[0] == 'J' && "J:2"[0] == 'J' && "K:1"[0] == 'K' && "K:2"[0] == 'K';
    assert "J:1"[2] == '1' && "J:2"[2] == '2' && "K:1"[2] == '1' && "K:2"[2] == '2' && "1"[0] == '1' && "2"[0] == '2';
  }

  lemma {:induction false} JournalsOfRows()
    ensures JournalId("J:1") == JournalId("J:2") == "J" && JournalId("K:1") == JournalId("K:2") == "K" && "J" != "K" && "R" != "J" && "R" != "K"
  {
    JournalIdRoundTrip("J", "1");
    JournalIdRoundTrip("J", "2");
    JournalIdRoundTrip("K", "1");
    JournalIdRoundTrip("K", "2");
    assert "J" + ":" + "1" == "J:1" && "J" + ":" + "2" == "J:2" && "K" + ":" + "1" == "K:1" && "K" + ":" + "2" == "K:2";
    assert "J"[0] == 'J' && "K"[0] == 'K' && "R"[0] == 'R';
    hide JournalId;
  }

  lemma {:induction false} StoredTwice()
    ensures BatchOf(POSTED_TWICE, POLICY) == Ok(Batch("r", Scope("m", "INR"), ById(POSTED_TWICE), POLICY))
    ensures FreshJournal(POSTED_TWICE, "R")
  {
    JournalsOfRows();
    hide EventId, JournalId, ById, BatchOf;
    OneScope(POSTED_TWICE, POLICY, "r", Scope("m", "INR"));
  }

  lemma {:induction false} RowsMeet()
    ensures DEBIT_LINE in POSTED_TWICE && SECOND_DEBIT in POSTED_TWICE && NET_ROW in POSTED_TWICE
    ensures Meets(DEBIT_LINE, ErpFor(Scope("m", "INR"), "S")) && Meets(SECOND_DEBIT, ErpFor(Scope("m", "INR"), "S"))
    ensures JournalId(DEBIT_LINE.recordId) != JournalId(SECOND_DEBIT.recordId)
    ensures Meets(NET_ROW, FromSource(Gateway)) && NET_ROW.settlementRef == "S"
  {
    JournalsOfRows();
    hide EventId, JournalId;
  }

  lemma {:induction false} TwoJournals(b: Batch)
    requires b == Batch("r", Scope("m", "INR"), ById(POSTED_TWICE), POLICY)
    ensures |Journals(ErpLines(b, "S"))| > 1 && "S" in SettlementReferences(b)
  {
    hide EventId, JournalId, ById, POSTED_TWICE, Select, Meets, Row, POLICY, DEBIT_LINE, SECOND_DEBIT, NET_ROW, Journals, SettlementKeys;
    RowsMeet();
    ByIdMembers(POSTED_TWICE);
    SelectMembers(b.events, ErpFor(b.scope, "S"));
    SelectMembers(b.events, FromSource(Gateway));
    var gateway := Select(b.events, FromSource(Gateway));
    SettlementKeysMembers(gateway);
    SortedDistinctMembers(SettlementKeys(gateway));
    assert NET_ROW in gateway;
    assert DEBIT_LINE in ErpLines(b, "S") && SECOND_DEBIT in ErpLines(b, "S");
    SeveralJournals(ErpLines(b, "S"));
  }

  lemma {:induction false} ReversalIsPosted(b: Batch, rows: seq<Lineage>)
    requires b.scope == Scope("m", "INR") && |rows| == 2
    ensures var posted := Postings(REVERSAL, REVERSAL_SLIP, rows);
      PostedUnder(posted, b, REVERSAL_SLIP) && posted != [] && Ordered(posted) && forall x | x in posted :: x.externalRef == "S"
  {
    hide Postings, PostedUnder, Ordered, JournalId;
    assert |Postings(REVERSAL, REVERSAL_SLIP, rows)| == 2 by {
      PostingsMatch(REVERSAL, REVERSAL_SLIP, rows);
    }
    PostingsMatch(REVERSAL, REVERSAL_SLIP, rows);
    PostingsAreOrdered(REVERSAL, REVERSAL_SLIP, rows);
    LinesArePostedUnder(b, REVERSAL, REVERSAL_SLIP, rows);
  }

  /** The reversal of the second journal is posted, everything is imported again, and the settlement still has
      several journals: it is not proved. */
  lemma {:induction false} ReversalLeavesItOpen(lineages: map<string, Lineage>, rows: seq<Lineage>, similarity: Similarity) returns (i: nat)
    requires |rows| == 2
    ensures BatchOf(POSTED_TWICE, POLICY).Ok?
    ensures var b := BatchOf(POSTED_TWICE, POLICY).value;
      && Known(b, SettlementReferences(b)) && i < |SettlementReferences(b)| && SettlementReferences(b)[i] == "S"
      && |AllCases(b)[i].journals| > 1
    ensures var refs := SettlementReferences(BatchOf(POSTED_TWICE, POLICY).value);
      var next := BatchOf(CorrectedEvents("r", POSTED_TWICE, "r2", lineages, Postings(REVERSAL, REVERSAL_SLIP, rows)), POLICY);
      && next.Ok? && Known(next.value, refs) && Cases(next.value, refs)[i].gateway != []
      && |Cases(next.value, refs)[i].journals| > 1
      && CaseLevel(next.value.runId, next.value.policy, Cases(next.value, refs)[i], similarity) != Proved
  {
    assert REVERSAL_SLIP.runId == "r2" && REVERSAL_SLIP.journalId == "R" && REVERSAL_SLIP.entity == "m" && POLICY.required == FIFTEEN;
    hide POSTED_TWICE, POLICY, REVERSAL, REVERSAL_SLIP, BatchOf, FIFTEEN, CorrectedEvents, Postings, PostedUnder, Ordered, UniqueIds, Issued,
         FreshJournal, SettlementReferences, Known, Cases, Journals, ErpLines, WellFormed, CaseLevel;
    StoredTwice();
    RowsAreApart();
    AcceptedBatchIsWellFormed(POSTED_TWICE, POLICY);
    var b := BatchOf(POSTED_TWICE, POLICY).value;
    TwoJournals(b);
    ReferencesAreKnown(b);
    i :| 0 <= i < |SettlementReferences(b)| && SettlementReferences(b)[i] == "S";
    JournalsOfCase(b, SettlementReferences(b), i);
    ReversalIsPosted(b, rows);
    CorrectedRunPosts(POSTED_TWICE, POLICY, i, REVERSAL_SLIP, lineages, Postings(REVERSAL, REVERSAL_SLIP, rows));
    hide Posts;
    var m := BatchOf(CorrectedEvents("r", POSTED_TWICE, "r2", lineages, Postings(REVERSAL, REVERSAL_SLIP, rows)), POLICY).value;
    ReversalNeverClears(b, m, Reimport("r", POSTED_TWICE, "r2", lineages), Postings(REVERSAL, REVERSAL_SLIP, rows), SettlementReferences(b), i, similarity);
  }

  lemma {:induction false} JournalsOfCase(b: Batch, refs: seq<string>, i: nat)
    requires Known(b, refs) && i < |refs|
    ensures Cases(b, refs)[i].journals == Journals(ErpLines(b, refs[i]))
  {
    CaseAt(b, refs, i);
    hide Cases, Known, Journals, ErpLines, GatewaySettlement;
  }
}
