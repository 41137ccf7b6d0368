/** What a correction reports back, and what a duplicate reversal cannot achieve. */
module RelatedCase {
  import opened Events
  import opened TextOrder
  import opened Selection
  import opened Context
  import opened SettlementRule
  import opened CaseFacts
  import opened Gate
  import opened Proof
  import opened Pipeline
  import opened Partition
  import opened Renaming
  import opened Mirror
  import opened Ledger
  import opened Rerun
  import opened CorrectionLoop

  function GatewayRecords(events: seq<Event>): set<string> {
    set e | e in events && e.source == Gateway :: e.recordId
  }

  /** The first of the candidate cases that shares a gateway record with the prior case. */
  function FindRelated(prior: set<string>, candidates: seq<seq<Event>>): Option<seq<Event>> {
    if candidates == [] then None
    else if prior * GatewayRecords(candidates[0]) != {} then Some(candidates[0])
    else FindRelated(prior, candidates[1..])
  }

  lemma {:induction false} FindsTheOnlyOne(prior: set<string>, candidates: seq<seq<Event>>, k: nat)
    requires k < |candidates| && prior * GatewayRecords(candidates[k]) != {}
    requires forall j | 0 <= j < |candidates| && j != k :: prior * GatewayRecords(candidates[j]) == {}
    ensures FindRelated(prior, candidates) == Some(candidates[k])
  {
    hide GatewayRecords;
    if k > 0 {
      assert forall j | 0 <= j < |candidates[1..]| :: candidates[1..][j] == candidates[j + 1];
      FindsTheOnlyOne(prior, candidates[1..], k - 1);
    }
  }

  lemma {:induction false} CaseGateway(b: Batch, refs: seq<string>, i: nat)
    requires WellFormed(b) && Known(b, refs) && i < |refs|
    ensures GatewayRecords(Members(Cases(b, refs)[i])) == GatewayRecords(Cases(b, refs)[i].gateway)
    ensures forall e | e in Cases(b, refs)[i].gateway :: e in b.events && e.source == Gateway && e.settlementRef == refs[i]
    ensures Cases(b, refs)[i].gateway != []
  {
    CaseAt(b, refs, i);
    var reference, consumed := refs[i], ClaimedBank(Cases(b, refs)[..i]);
    MembersOfCase(b, reference, consumed);
    GatewayFacts(b, reference);
    hide Cases, Members, FactsOf, GatewaySettlement, Pick, Flatten, Known, WellFormed, ClaimedBank;
    assert GatewayRecords(Members(Cases(b, refs)[i])) == GatewayRecords(Cases(b, refs)[i].gateway);
  }

  lemma {:induction false} RecordsOfRenamed(r: Renaming, s: seq<Event>)
    ensures GatewayRecords(RenameAll(r, s)) == GatewayRecords(s)
  {
    RenameAllMembers(r, s);
    hide RenameAll, NewId;
    forall id ensures id in GatewayRecords(RenameAll(r, s)) <==> id in GatewayRecords(s) {
      if id in GatewayRecords(s) {
        var e :| e in s && e.source == Gateway && e.recordId == id;
        assert Rename(r, e) in RenameAll(r, s);
      }
    }
  }

  /** A gateway record belongs to one settlement. */
  lemma {:induction false} RecordsKeepCasesApart(b: Batch, refs: seq<string>, i: nat, k: nat)
    requires WellFormed(b) && Known(b, refs) && Ascending(refs) && i < |refs| && k < |refs| && Issued(b.runId, b.events)
    ensures GatewayRecords(Cases(b, refs)[i].gateway) * GatewayRecords(Cases(b, refs)[k].gateway) != {} <==> i == k
  {
    CaseGateway(b, refs, i);
    CaseGateway(b, refs, k);
    hide Cases, Known, EventId, Members, GatewayRecords, Issued, Ordered;
    if refs[i] == refs[k] {
      AscendingHasNoRepeats(refs, i, k);
    }
    hide Ascending;
    SharedRecord(b, Cases(b, refs)[i].gateway, Cases(b, refs)[k].gateway, refs[i], refs[k]);
  }

  lemma {:induction false} SharedRecord(b: Batch, g: seq<Event>, h: seq<Event>, x: string, y: string)
    requires Ordered(b.events) && Issued(b.runId, b.events) && g != [] && (x == y ==> g == h)
    requires forall e | e in g :: e in b.events && e.source == Gateway && e.settlementRef == x
    requires forall e | e in h :: e in b.events && e.source == Gateway && e.settlementRef == y
    ensures GatewayRecords(g) * GatewayRecords(h) != {} <==> x == y
  {
    hide EventId;
    assert g[0] in g;
    assert g[0].recordId in GatewayRecords(g);
    if g == h {
      assert g[0].recordId in GatewayRecords(g) * GatewayRecords(h);
    }
    if id :| id in GatewayRecords(g) && id in GatewayRecords(h) {
      var d :| d in g && d.recordId == id;
      var e :| e in h && e.recordId == id;
      IdDeterminesEvent(b.events, d, e);
    }
  }

  /** The corrected run has exactly one case that shares a gateway record with the corrected one: the
      case of the same settlement. So the correction reports on the right case. */
  lemma {:induction false} OnlyItsCaseIsRelated(b: Batch, m: Batch, r: Renaming, posted: seq<Event>, refs: seq<string>, i: nat, k: nat)
    requires Posts(b, m, r, posted, refs, i) && Issued(b.runId, b.events) && k < |MemberLists(m, Cases(m, refs))|
    ensures GatewayRecords(Members(Cases(b, refs)[i])) * GatewayRecords(MemberLists(m, Cases(m, refs))[k]) != {} <==> k == i
  {
    assert WellFormed(b) && WellFormed(m) && Ordered(m.events);
    ReferencesAscend(b);
    MemberListParts(m, Cases(m, refs), k);
    CaseGateway(b, refs, i);
    if k < |refs| {
      CaseGateway(m, refs, k);
      CaseGateway(b, refs, k);
      CaseAfter(b, m, r, posted, refs, k);
      RecordsOfRenamed(r, Cases(b, refs)[k].gateway);
      hide Cases, Known, Mirrors, MemberLists, Members, GatewayRecords, SettlementReferences, RenameAll;
      RecordsKeepCasesApart(b, refs, i, k);
    } else {
      hide Cases, Known, Mirrors, Members, SettlementReferences, OrphanBank, OrphanErp, Issued;
      OrphansAreNotGateway(m, Cases(m, refs), k);
      hide MemberLists;
      assert GatewayRecords(MemberLists(m, Cases(m, refs))[k]) == {};
    }
  }

  lemma {:induction false} OrphansAreNotGateway(b: Batch, cases: seq<Facts>, k: nat)
    requires Ordered(b.events) && |cases| <= k < |MemberLists(b, cases)|
    ensures forall e | e in MemberLists(b, cases)[k] :: e.source != Gateway
  {
    MemberListParts(b, cases, k);
    hide MemberLists, OrphanBank, OrphanErp, ClaimedBank, ClaimedErp;
    OrphanBankRows(b, cases);
    if k < |cases| + |OrphanBank(b, cases)| {
      assert OrphanBank(b, cases)[k - |cases|] in OrphanBank(b, cases);
    } else {
      OrphanJournal(b, cases, k - |cases| - |OrphanBank(b, cases)|);
    }
  }

  /** Whatever order the corrected run's cases are listed in, the related one is found. */
  lemma {:induction false} RelatedCaseIsFound(b: Batch, m: Batch, r: Renaming, posted: seq<Event>, refs: seq<string>, i: nat,
                                              listed: seq<nat>, at: nat)
    requires Posts(b, m, r, posted, refs, i) && Issued(b.runId, b.events)
    requires forall j | 0 <= j < |listed| :: listed[j] < |MemberLists(m, Cases(m, refs))|
    requires at < |listed| && listed[at] == i && forall j | 0 <= j < |listed| && j != at :: listed[j] != i
    ensures i < |MemberLists(m, Cases(m, refs))|
    ensures FindRelated(GatewayRecords(Members(Cases(b, refs)[i])),
                        seq(|listed|, j requires 0 <= j < |listed| => MemberLists(m, Cases(m, refs))[listed[j]]))
         == Some(MemberLists(m, Cases(m, refs))[i])
  {
    hide Posts, Cases, MemberLists, Members, GatewayRecords, Issued;
    assert |Cases(b, refs)| > i by { assert Known(b, refs) && i < |refs| by { PostsMeans(b, m, r, posted, refs, i); } }
    PostsMeans(b, m, r, posted, refs, i);
    var prior := GatewayRecords(Members(Cases(b, refs)[i]));
    var candidates := seq(|listed|, j requires 0 <= j < |listed| => MemberLists(m, Cases(m, refs))[listed[j]]);
    forall j: nat | j < |listed| ensures prior * GatewayRecords(candidates[j]) != {} <==> j == at {
      OnlyItsCaseIsRelated(b, m, r, posted, refs, i, listed[j]);
    }
    FindsTheOnlyOne(prior, candidates, at);
  }

  lemma PostsMeans(b: Batch, m: Batch, r: Renaming, posted: seq<Event>, refs: seq<string>, i: nat)
    requires Posts(b, m, r, posted, refs, i)
    ensures Known(b, refs) && Known(m, refs) && i < |refs|
  {
  }

  // ---- duplicate postings -------------------------------------------------------------------

  lemma {:induction false} SeveralJournals(lines: seq<Event>)
    ensures |Journals(lines)| > 1 <==> exists x, y :: x in lines && y in lines && JournalId(x.recordId) != JournalId(y.recordId)
  {
    var keys := JournalKeys(lines);
    var ids := SortedDistinct(keys);
    SortedDistinctMembers(keys);
    SortedDistinctAscending(keys);
    hide JournalId, SortedDistinct, Select;
    if |ids| > 1 {
      assert ids[0] in keys && ids[1] in keys;
      var i :| 0 <= i < |lines| && keys[i] == ids[0];
      var j :| 0 <= j < |lines| && keys[j] == ids[1];
      assert lines[i] in lines && lines[j] in lines;
      if ids[0] == ids[1] {
        AscendingHasNoRepeats(ids, 0, 1);
      }
    }
    if x, y :| x in lines && y in lines && JournalId(x.recordId) != JournalId(y.recordId) {
      KeyOfLine(lines, x);
      KeyOfLine(lines, y);
    }
  }

  lemma {:induction false} KeyOfLine(lines: seq<Event>, x: Event)
    requires x in lines
    ensures JournalId(x.recordId) in JournalKeys(lines)
  {
    hide JournalId;
    var i :| 0 <= i < |lines| && lines[i] == x;
    assert JournalKeys(lines)[i] == JournalId(x.recordId);
  }

  /** Posting a reversal, or anything else, under a reference with several journals cannot clear it:
      the corrected run still finds several journals there. */
  lemma {:induction false} ReversalNeverClears(b: Batch, m: Batch, r: Renaming, posted: seq<Event>, refs: seq<string>, i: nat,
                                               similarity: Similarity)
    requires Posts(b, m, r, posted, refs, i)
    requires |Cases(b, refs)[i].journals| > 1
    ensures Cases(m, refs)[i].gateway != []
    ensures |Cases(m, refs)[i].journals| > 1
    ensures CaseLevel(m.runId, m.policy, Cases(m, refs)[i], similarity) != Proved
  {
    CaseAt(b, refs, i);
    CaseAt(m, refs, i);
    var before, after := ErpLines(b, refs[i]), ErpLines(m, refs[i]);
    assert Cases(b, refs)[i].journals == Journals(before) && Cases(m, refs)[i].journals == Journals(after);
    StillSeveral(b, m, r, posted, refs[i]);
    hide Cases, Known, Mirrors, ErpLines, Journals, GatewaySettlement, CaseLevel, SettlementReferences;
    SeveralJournalsNeverProve(m.runId, m.policy, Cases(m, refs)[i], similarity);
  }

  /** Whatever a policy requires, the gate proves only unique matches. */
  lemma {:induction false} SeveralJournalsNeverProve(runId: string, p: Policy, f: Facts, similarity: Similarity)
    requires f.gateway != [] && |f.journals| > 1
    ensures CaseLevel(runId, p, f, similarity) != Proved
  {
    hide SettlementProposal, SettlementUnique, BankUnique, FirstAmong;
    FlagsOf(runId, p, f, similarity);
  }

  lemma {:induction false} StillSeveral(b: Batch, m: Batch, r: Renaming, posted: seq<Event>, reference: string)
    requires Mirrors(b, m, r, posted) && |Journals(ErpLines(b, reference))| > 1
    ensures |Journals(ErpLines(m, reference))| > 1
  {
    ErpFacts(b, reference);
    ErpFacts(m, reference);
    RenameAllMembers(r, b.events);
    SeveralJournals(ErpLines(b, reference));
    SeveralJournals(ErpLines(m, reference));
    hide Journals, ErpLines, Monotone, RenameAll, JournalId, NewId, Ordered;
    var x, y :| x in ErpLines(b, reference) && y in ErpLines(b, reference) && JournalId(x.recordId) != JournalId(y.recordId);
    assert Rename(r, x) in m.events && Rename(r, y) in m.events;
    assert Rename(r, x) in ErpLines(m, reference) && Rename(r, y) in ErpLines(m, reference);
  }
}
