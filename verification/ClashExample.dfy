/** A batch whose result the store refuses: a bank record and a journal of the same name. */
module ClashExample {
  import opened Events
  import opened TextOrder
  import opened Selection
  import opened Context
  import opened SettlementRule
  import opened Pipeline
  import opened Totality
  import opened RunProtocol
  import opened Ledger
  import opened Correction
  import opened Rerun
  import opened CaseKeys
  import opened Example

  const FREE_RECEIPT: Event := Row(Bank, "J", BankCredit, Credit, "", "", "", "", "")
  const LOOSE_LINE: Event := Row(Erp, "J:1", ErpJournalLine, Debit, "", "", "", "110000", "")
  const CLASH: Batch := Batch("r", Scope("m", "INR"), [FREE_RECEIPT, LOOSE_LINE], PolicyWith(FIFTEEN))

  lemma {:induction false} ClashIsWellFormed()
    ensures WellFormed(CLASH) && Issued("r", CLASH.events) && CLASH.policy.Valid() && CLASH.policy.required == FIFTEEN
  {
    assert BankReceiptPresent in FIFTEEN;
    PolicyIsValid(FIFTEEN);
    SourcesAscend(Bank, "J", Erp, "J:1");
    hide EventId, Less;
  }

  lemma {:induction false} NothingSettles()
    ensures SettlementReferences(CLASH) == [] && Known(CLASH, []) && Cases(CLASH, []) == []
  {
    hide EventId, Select, JournalId;
    SelectPair(FREE_RECEIPT, LOOSE_LINE, FromSource(Gateway));
    assert Select(CLASH.events, FromSource(Gateway)) == [];
  }

  lemma {:induction false} LooseJournal()
    ensures JournalId(LOOSE_LINE.recordId) == "J" && Journals([LOOSE_LINE]) == [[LOOSE_LINE]]
  {
    JournalIdRoundTrip("J", "1");
    assert "J" + ":" + "1" == "J:1";
    assert LOOSE_LINE.recordId == "J:1";
    hide JournalId, Row;
    OneJournal([LOOSE_LINE], "J");
  }

  lemma {:induction false} FreeRows()
    ensures Select(CLASH.events, Unclaimed(Bank, {})) == [FREE_RECEIPT] && Select(CLASH.events, Unclaimed(Erp, {})) == [LOOSE_LINE]
  {
    hide EventId, Select, JournalId;
    SelectPair(FREE_RECEIPT, LOOSE_LINE, Unclaimed(Bank, {}));
    SelectPair(FREE_RECEIPT, LOOSE_LINE, Unclaimed(Erp, {}));
  }

  lemma {:induction false} BothAreOrphans()
    ensures OrphanBank(CLASH, []) == [FREE_RECEIPT] && OrphanErp(CLASH, []) == [[LOOSE_LINE]]
  {
    assert ClaimedBank([]) == {} && ClaimedErp([]) == {};
    hide EventId, Select, JournalId, ClaimedBank, ClaimedErp, Journals, CLASH, FREE_RECEIPT, LOOSE_LINE;
    LooseJournal();
    FreeRows();
  }

  lemma {:induction false} SameName()
    ensures RecordIds([FREE_RECEIPT]) == ["J"] && JournalNames([[LOOSE_LINE]]) == ["J"]
  {
    LooseJournal();
    hide JournalId, EventId;
    assert JournalName([LOOSE_LINE]) == "J";
  }

  /** The kernel accepts the batch, and the store refuses its result: both orphans are filed under one key. */
  lemma {:induction false} ClashIsNotStorable(similarity: Similarity, r: RunRecord)
    requires r.decisions == [] && r.exceptions == [] && r.summary.None?
    ensures WellFormed(CLASH) && Issued("r", CLASH.events)
    ensures Outcome(CLASH, similarity).Ok? && !Storable(r, Outcome(CLASH, similarity).value)
  {
    ClashIsWellFormed();
    NothingSettles();
    BothAreOrphans();
    SameName();
    hide CLASH, FREE_RECEIPT, LOOSE_LINE, WellFormed, Storable, SettlementReferences, OrphanBank, OrphanErp, Cases, Known, Presentable,
         FIFTEEN, JournalNames, RecordIds, Outcome, Kernel, Issued;
    InOrder(CLASH);
    CasesArePresentable(CLASH, []);
    KernelIsTotalHere(CLASH, similarity);
    assert "J" in RecordIds(OrphanBank(CLASH, AllCases(CLASH))) && "J" in JournalNames(OrphanErp(CLASH, AllCases(CLASH)));
    assert !NamesDiffer(CLASH);
    hide NamesDiffer;
    StorableWhenNamesDiffer(CLASH, similarity, r);
  }
}
