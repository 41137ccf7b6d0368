/** Case keys are not namespaced by source: which batches give a result that the store's primary keys admit. */
module CaseKeys {
  import opened Events
  import opened TextOrder
  import opened Selection
  import opened Context
  import opened Proposals
  import opened SettlementRule
  import opened Gate
  import opened Pipeline
  import opened Partition
  import opened RunProtocol
  import opened Ledger
  import opened Rerun

  /** The key an orphaned journal is filed under. */
  function JournalName(rows: seq<Event>): string {
    if rows == [] then "" else OrphanKey(rows, JournalId(rows[0].recordId))
  }

  function RecordIds(rows: seq<Event>): seq<string> {
    seq(|rows|, i requires 0 <= i < |rows| => rows[i].recordId)
  }

  function JournalNames(journals: seq<seq<Event>>): seq<string> {
    seq(|journals|, i requires 0 <= i < |journals| => JournalName(journals[i]))
  }

  function CaseKeysOf(ps: seq<Proposal>): seq<string> {
    seq(|ps|, i requires 0 <= i < |ps| => ps[i].caseKey)
  }

  ghost predicate Apart(s: seq<string>, t: seq<string>) {
    forall x | x in s :: x !in t
  }

  /** No orphaned bank record or journal is named like a settlement or like one another. */
  ghost predicate NamesDiffer(b: Batch)
    requires Known(b, SettlementReferences(b))
  {
    var refs := SettlementReferences(b);
    var records, journals := RecordIds(OrphanBank(b, AllCases(b))), JournalNames(OrphanErp(b, AllCases(b)));
    && DistinctTexts(records) && DistinctTexts(journals)
    && Apart(refs, records) && Apart(refs, journals) && Apart(records, journals)
  }

  lemma {:induction false} OrphanCaseKey(b: Batch, rows: seq<Event>, reason: Reason, key: string)
    requires rows != []
    ensures OrphanProposal(b.runId, b.policy, rows, reason, key).caseKey == OrphanKey(rows, key)
  {
    hide LargestAmount;
  }

  lemma {:induction false} KeyAt(b: Batch, cases: seq<Facts>, similarity: Similarity, i: nat)
    requires Presentable(b, cases) && i < |ProposalsFrom(b, cases, similarity)|
    ensures var keys := References(cases) + (RecordIds(OrphanBank(b, cases)) + JournalNames(OrphanErp(b, cases)));
      |ProposalsFrom(b, cases, similarity)| == |keys| && ProposalsFrom(b, cases, similarity)[i].caseKey == keys[i]
  {
    hide OrphanBank, OrphanErp, OrphanProposal, SettlementProposal, ProposalsFrom, Presentable, MemberLists, OrphanKey, JournalId;
    ProposalListParts(b, cases, similarity, i);
    var n, m := |cases|, |OrphanBank(b, cases)|;
    if i < n {
      CaseKeyOf(b, cases[i], similarity);
    } else if i < n + m {
      OrphanCaseKey(b, [OrphanBank(b, cases)[i - n]], OrphanBankCredit, "");
      SingleKey(OrphanBank(b, cases)[i - n]);
    } else {
      var rows := OrphanErp(b, cases)[i - n - m];
      OrphanCaseKey(b, rows, OrphanErpPosting, JournalId(rows[0].recordId));
    }
  }

  function References(cases: seq<Facts>): seq<string> {
    seq(|cases|, i requires 0 <= i < |cases| => cases[i].reference)
  }

  lemma CaseKeyOf(b: Batch, f: Facts, similarity: Similarity)
    requires f.gateway != []
    ensures SettlementProposal(b.runId, b.policy, f, similarity).caseKey == f.reference
  {
    hide Members, Features, ProofChecks, SupportChecks, Reasons, FirstOfEach;
  }

  lemma SingleKey(e: Event)
    ensures OrphanKey([e], "") == e.recordId
  {
  }

  /** The keys of a run: the references, then the free bank records, then the orphaned journals. */
  lemma {:induction false} KeysOfRun(b: Batch, refs: seq<string>, similarity: Similarity)
    requires Known(b, refs) && Presentable(b, Cases(b, refs))
    ensures CaseKeysOf(ProposalsFrom(b, Cases(b, refs), similarity))
         == refs + (RecordIds(OrphanBank(b, Cases(b, refs))) + JournalNames(OrphanErp(b, Cases(b, refs))))
  {
    var cases := Cases(b, refs);
    var ps := ProposalsFrom(b, cases, similarity);
    hide OrphanBank, OrphanErp, ProposalsFrom, Presentable, Cases, JournalName, Known;
    ReferencesOfCases(b, refs);
    var keys := refs + (RecordIds(OrphanBank(b, cases)) + JournalNames(OrphanErp(b, cases)));
    SameLength(b, cases, similarity);
    hide References, RecordIds, JournalNames;
    assert |ps| == |keys| by {
      Lengths(cases, OrphanBank(b, cases), OrphanErp(b, cases));
    }
    forall i: nat | i < |ps| ensures ps[i].caseKey == keys[i] {
      KeyAt(b, cases, similarity, i);
    }
  }

  lemma {:induction false} ReferencesOfCases(b: Batch, refs: seq<string>)
    requires Known(b, refs)
    ensures References(Cases(b, refs)) == refs
  {
    hide Cases, Known, FactsOf, GatewaySettlement;
    forall i | 0 <= i < |refs| ensures References(Cases(b, refs))[i] == refs[i] {
      CaseAt(b, refs, i);
    }
  }

  lemma Lengths(cases: seq<Facts>, rows: seq<Event>, journals: seq<seq<Event>>)
    ensures |References(cases)| == |cases| && |RecordIds(rows)| == |rows| && |JournalNames(journals)| == |journals|
  {
  }

  lemma SameLength(b: Batch, cases: seq<Facts>, similarity: Similarity)
    requires Presentable(b, cases)
    ensures |ProposalsFrom(b, cases, similarity)| == |cases| + |OrphanBank(b, cases)| + |OrphanErp(b, cases)|
  {
    hide OrphanBank, OrphanErp, OrphanProposal, SettlementProposal;
  }

  lemma {:induction false} DistinctParts(s: seq<string>, t: seq<string>)
    ensures DistinctTexts(s + t) <==> DistinctTexts(s) && DistinctTexts(t) && Apart(s, t)
  {
    var all := s + t;
    if DistinctTexts(all) {
      forall i, j | 0 <= i < j < |s| ensures s[i] != s[j] {
        assert all[i] != all[j];
      }
      forall i, j | 0 <= i < j < |t| ensures t[i] != t[j] {
        assert all[|s| + i] != all[|s| + j];
      }
      forall i, j | 0 <= i < |s| && 0 <= j < |t| ensures s[i] != t[j] {
        assert all[i] != all[|s| + j];
      }
    } else {
      var i, j :| 0 <= i < j < |all| && all[i] == all[j];
      if i < |s| <= j {
        assert s[i] in s && t[j - |s|] in t;
      }
    }
  }

  lemma ApartFromBoth(s: seq<string>, t: seq<string>, u: seq<string>)
    ensures Apart(s, t + u) <==> Apart(s, t) && Apart(s, u)
  {
  }

  /** A run's result fits the store's primary keys if and only if no two of the orphaned bank records, the
      orphaned journals and the settlements share a name. */
  lemma {:induction false} StorableWhenNamesDiffer(b: Batch, similarity: Similarity, r: RunRecord)
    requires Known(b, SettlementReferences(b)) && Presentable(b, AllCases(b))
    requires r.decisions == [] && r.exceptions == [] && r.summary.None?
    ensures Storable(r, Kernel(b, similarity)) <==> NamesDiffer(b)
  {
    var refs, cases := SettlementReferences(b), AllCases(b);
    var ps := ProposalsFrom(b, cases, similarity);
    var records, journals := RecordIds(OrphanBank(b, cases)), JournalNames(OrphanErp(b, cases));
    SortedDistinctAscending(SettlementKeys(Select(b.events, FromSource(Gateway))));
    hide OrphanBank, OrphanErp, ProposalsFrom, Presentable, Cases, Known, Decisions, Exceptions, SettlementReferences, Storable,
         DistinctTexts, RecordIds, JournalNames, Apart;
    StorableExactly(b, ps, r);
    KeysOfRun(b, refs, similarity);
    KeysAreKeys(ps);
    AscendingIsDistinct(refs);
    DistinctParts(refs, records + journals);
    DistinctParts(records, journals);
    ApartFromBoth(refs, records, journals);
  }

  lemma KeysAreKeys(ps: seq<Proposal>)
    ensures DistinctKeys(ps) <==> DistinctTexts(CaseKeysOf(ps))
  {
    var keys := CaseKeysOf(ps);
    assert forall i | 0 <= i < |ps| :: keys[i] == ps[i].caseKey;
  }

  lemma {:induction false} AscendingIsDistinct(keys: seq<string>)
    requires Ascending(keys)
    ensures DistinctTexts(keys)
  {
    forall i, j | 0 <= i < j < |keys| ensures keys[i] != keys[j] {
      Irreflexive(keys[i]);
    }
  }

  // ---- a condition on rows ------------------------------------------------------------------

  /** What a row can give its case as a key. */
  function NameOf(e: Event): string {
    match e.source
    case Gateway => e.settlementRef
    case Bank => e.recordId
    case Erp => JournalId(e.recordId)
  }

  /** Rows of different sources have different names, and every journal has one. */
  ghost predicate RowNamesDiffer(events: seq<Event>) {
    && (forall e | e in events && e.source == Erp :: NameOf(e) != "")
    && (forall x, y | x in events && y in events && x.source != y.source && NameOf(x) == NameOf(y) :: NameOf(x) == "")
  }

  lemma {:induction false} BankRecordsDiffer(b: Batch, cases: seq<Facts>)
    requires WellFormed(b) && Issued(b.runId, b.events)
    ensures DistinctTexts(RecordIds(OrphanBank(b, cases)))
  {
    OrphanBankRows(b, cases);
    var rows := OrphanBank(b, cases);
    hide OrphanBank, EventId, ClaimedBank;
    forall i, j | 0 <= i < j < |rows| ensures rows[i].recordId != rows[j].recordId {
      assert rows[i] in rows && rows[j] in rows;
      Irreflexive(rows[i].eventId);
    }
  }

  lemma {:induction false} NameOfJournal(lines: seq<Event>, i: nat)
    requires i < |Journals(lines)| && forall e | e in lines :: JournalId(e.recordId) != ""
    ensures JournalName(Journals(lines)[i]) == SortedDistinct(JournalKeys(lines))[i]
    ensures exists e :: e in lines && JournalName(Journals(lines)[i]) == JournalId(e.recordId)
  {
    var id := SortedDistinct(JournalKeys(lines))[i];
    SortedDistinctMembers(JournalKeys(lines));
    hide SortedDistinct, JournalId, Select;
    assert id in JournalKeys(lines);
    var k :| 0 <= k < |lines| && JournalKeys(lines)[k] == id;
    SelectMembers(lines, InJournal(id));
    var rows := Journals(lines)[i];
    assert lines[k] in rows;
    assert rows[0] in rows;
  }

  lemma {:induction false} JournalNamesDiffer(b: Batch, cases: seq<Facts>)
    requires WellFormed(b) && RowNamesDiffer(b.events)
    ensures DistinctTexts(JournalNames(OrphanErp(b, cases)))
    ensures forall name | name in JournalNames(OrphanErp(b, cases)) ::
      exists e :: e in b.events && e.source == Erp && name == NameOf(e)
  {
    OrphanErpRows(b, cases);
    var lines := OrphanErpLines(b, cases);
    var journals, keys := OrphanErp(b, cases), JournalKeys(lines);
    SortedDistinctAscending(keys);
    hide OrphanErp, OrphanErpLines, ClaimedErp, JournalId, JournalName, SortedDistinct, Ordered;
    forall e | e in lines ensures JournalId(e.recordId) != "" {
      assert NameOf(e) == JournalId(e.recordId);
    }
    assert |journals| == |SortedDistinct(keys)|;
    hide Journals, JournalKeys;
    forall i: nat | i < |journals|
      ensures JournalName(journals[i]) == SortedDistinct(keys)[i]
      ensures exists e :: e in b.events && e.source == Erp && JournalName(journals[i]) == NameOf(e)
    {
      NameOfJournal(lines, i);
      var e :| e in lines && JournalName(Journals(lines)[i]) == JournalId(e.recordId);
      assert NameOf(e) == JournalId(e.recordId);
    }
    AscendingIsDistinct(SortedDistinct(keys));
  }

  lemma {:induction false} ReferenceNames(b: Batch)
    ensures forall x | x in SettlementReferences(b) :: x != "" && exists e :: e in b.events && e.source == Gateway && x == NameOf(e)
  {
    var gateway := Select(b.events, FromSource(Gateway));
    SelectMembers(b.events, FromSource(Gateway));
    SettlementKeysMembers(gateway);
    SortedDistinctMembers(SettlementKeys(gateway));
    hide SettlementKeys, SortedDistinct, Select;
    forall x | x in SettlementReferences(b) ensures x != "" && exists e :: e in b.events && e.source == Gateway && x == NameOf(e) {
      var e :| e in gateway && e.settlementRef == x;
      assert NameOf(e) == x;
    }
  }

  lemma {:induction false} BankNames(b: Batch, cases: seq<Facts>)
    requires WellFormed(b)
    ensures forall x | x in RecordIds(OrphanBank(b, cases)) :: exists e :: e in b.events && e.source == Bank && x == NameOf(e)
  {
    OrphanBankRows(b, cases);
    var rows := OrphanBank(b, cases);
    hide OrphanBank, ClaimedBank, Ordered;
    forall x | x in RecordIds(rows) ensures exists e :: e in b.events && e.source == Bank && x == NameOf(e) {
      var i :| 0 <= i < |rows| && rows[i].recordId == x;
      assert rows[i] in rows && NameOf(rows[i]) == x;
    }
  }

  /** On rows alone: bank records, journals and settlements named apart are enough. */
  lemma {:induction false} RowNamesSuffice(b: Batch, similarity: Similarity, r: RunRecord)
    requires WellFormed(b) && Issued(b.runId, b.events) && RowNamesDiffer(b.events)
    requires Known(b, SettlementReferences(b)) && Presentable(b, AllCases(b))
    requires r.decisions == [] && r.exceptions == [] && r.summary.None?
    ensures Storable(r, Kernel(b, similarity))
  {
    var cases := AllCases(b);
    hide OrphanBank, OrphanErp, ProposalsFrom, Presentable, Cases, Known, Kernel, SettlementReferences, Storable, DistinctTexts,
         RecordIds, JournalNames, Issued, WellFormed;
    BankRecordsDiffer(b, cases);
    JournalNamesDiffer(b, cases);
    ReferenceNames(b);
    BankNames(b, cases);
    StorableWhenNamesDiffer(b, similarity, r);
  }
}
