/** A whole run of a mirrored batch follows the original run, case by case. */
module MirrorRun {
  import opened Events
  import opened Selection
  import opened Grouping
  import opened Context
  import opened SettlementRule
  import opened CaseFacts
  import opened Pipeline
  import opened Partition
  import opened Renaming
  import opened Mirror
  import opened Invariance

  lemma {:induction false} MirroredReferences(b: Batch, m: Batch, r: Renaming, extra: seq<Event>)
    requires Mirrors(b, m, r, extra)
    ensures SettlementReferences(m) == SettlementReferences(b)
  {
    var g, g' := Select(b.events, FromSource(Gateway)), Select(m.events, FromSource(Gateway));
    MirroredSelect(b, m, r, extra, FromSource(Gateway));
    RenamedKeys(r, g);
    assert g' == RenameAll(r, g);
  }

  lemma {:induction false} RenamedKeys(r: Renaming, es: seq<Event>)
    ensures SettlementKeys(RenameAll(r, es)) == SettlementKeys(es)
  {
    if es != [] {
      RenamedKeys(r, es[1..]);
      assert RenameAll(r, es)[1..] == RenameAll(r, es[1..]);
    }
  }

  /** What the mirrored run sees of a case. */
  ghost function MirrorCase(m: Batch, r: Renaming, f: Facts): Facts {
    RenameFacts(r, f).(journals := Journals(ErpLines(m, f.reference)))
  }

  ghost function MirrorCases(m: Batch, r: Renaming, cases: seq<Facts>): (out: seq<Facts>)
    ensures |out| == |cases|
  {
    if cases == [] then []
    else MirrorCases(m, r, cases[..|cases| - 1]) + [MirrorCase(m, r, cases[|cases| - 1])]
  }

  lemma {:induction false} MirrorCasesAt(m: Batch, r: Renaming, cases: seq<Facts>, i: nat)
    requires i < |cases|
    ensures MirrorCases(m, r, cases)[i] == MirrorCase(m, r, cases[i])
  {
    hide MirrorCase;
    if i < |cases| - 1 {
      MirrorCasesAt(m, r, cases[..|cases| - 1], i);
    }
  }

  lemma {:induction false} CaseIsDrawnFrom(b: Batch, r: Renaming, reference: string, consumed: set<string>)
    requires Ordered(b.events) && Monotone(r, IdSet(b.events)) && GatewaySettlement(b, reference) != []
    ensures DrawnFrom(r, FactsOf(b, reference, consumed), b.events)
  {
    var f := FactsOf(b, reference, consumed);
    SearchedGroups(b, Anchor(f.gateway).day, consumed, Net(f.gateway));
    hide Search, Receipts, Anchor, Net, UtrRows, Journals, ErpLines, GatewaySettlement, Ordered, Monotone;
  }

  lemma {:induction false} RenamedIdSet(r: Renaming, s: seq<Event>)
    ensures IdSet(RenameAll(r, s)) == RenameIds(r, IdSet(s))
  {
    RenameAllMembers(r, s);
    hide RenameAll, NewId;
    forall id ensures id in IdSet(RenameAll(r, s)) <==> id in RenameIds(r, IdSet(s)) {
      if id in RenameIds(r, IdSet(s)) {
        var x :| x in IdSet(s) && id == NewId(r, x);
        var e :| e in s && e.eventId == x;
        assert Rename(r, e) in RenameAll(r, s);
      }
    }
  }

  lemma {:induction false} RenamedUnion(r: Renaming, s: set<string>, t: set<string>)
    ensures RenameIds(r, s + t) == RenameIds(r, s) + RenameIds(r, t)
  {
  }

  lemma PickIgnoresJournals(f: Facts, journals: seq<seq<Event>>)
    ensures Pick(f.(journals := journals)) == Pick(f)
  {
    hide SelectBankGroup, Total, Net;
  }

  lemma {:induction false} ClaimsAreInBatch(b: Batch, refs: seq<string>)
    requires WellFormed(b) && Known(b, refs)
    ensures ClaimedBank(Cases(b, refs)) <= IdSet(b.events)
  {
    var cases := Cases(b, refs);
    forall id | id in ClaimedBank(cases) ensures id in IdSet(b.events) {
      ClaimedBankMeans(cases, id);
      var i :| 0 <= i < |cases| && id in IdSet(Pick(cases[i]).candidates);
      CaseRows(b, refs, i);
    }
  }

  /** The bank rows a mirrored case takes are the renamed rows. */
  lemma {:induction false} MirroredClaim(b: Batch, m: Batch, r: Renaming, reference: string, consumed: set<string>)
    requires Ordered(b.events) && Monotone(r, IdSet(b.events)) && GatewaySettlement(b, reference) != []
    ensures var f := FactsOf(b, reference, consumed);
      IdSet(Pick(MirrorCase(m, r, f)).candidates) == RenameIds(r, IdSet(Pick(f).candidates))
  {
    var f := FactsOf(b, reference, consumed);
    CaseIsDrawnFrom(b, r, reference, consumed);
    RenamedPick(r, f, b.events);
    hide FactsOf, Pick, RenameFacts, DrawnFrom, Journals, ErpLines, IdSet, RenameIds, GatewaySettlement, RenameAll;
    PickIgnoresJournals(RenameFacts(r, f), Journals(ErpLines(m, f.reference)));
    RenamedIdSet(r, Pick(f).candidates);
  }

  lemma {:induction false} MirroredCases(b: Batch, m: Batch, r: Renaming, extra: seq<Event>, refs: seq<string>)
    requires Mirrors(b, m, r, extra) && Known(b, refs)
    ensures Known(m, refs)
    ensures Cases(m, refs) == MirrorCases(m, r, Cases(b, refs))
    ensures ClaimedBank(Cases(m, refs)) == RenameIds(r, ClaimedBank(Cases(b, refs)))
  {
    hide FactsOf, Pick, MirrorCase, IdSet, RenameIds, WellFormed;
    forall i | 0 <= i < |refs| ensures GatewaySettlement(m, refs[i]) != [] {
      MirroredGateway(b, m, r, extra, refs[i]);
    }
    if refs != [] {
      var n := |refs| - 1;
      MirroredCases(b, m, r, extra, refs[..n]);
      MirroredStep(b, m, r, extra, refs[..n], refs[n]);
    } else {
      NothingToRename(r);
    }
  }

  lemma NothingToRename(r: Renaming)
    ensures RenameIds(r, {}) == {}
  {
  }

  lemma {:induction false} MirroredStep(b: Batch, m: Batch, r: Renaming, extra: seq<Event>, refs: seq<string>, reference: string)
    requires Mirrors(b, m, r, extra) && Known(b, refs) && Known(m, refs)
    requires GatewaySettlement(b, reference) != [] && GatewaySettlement(m, reference) != []
    requires ClaimedBank(Cases(m, refs)) == RenameIds(r, ClaimedBank(Cases(b, refs)))
    ensures var f := FactsOf(b, reference, ClaimedBank(Cases(b, refs)));
      && FactsOf(m, reference, ClaimedBank(Cases(m, refs))) == MirrorCase(m, r, f)
      && ClaimedBank(Cases(m, refs)) + IdSet(Pick(MirrorCase(m, r, f)).candidates)
         == RenameIds(r, ClaimedBank(Cases(b, refs)) + IdSet(Pick(f).candidates))
  {
    var consumed := ClaimedBank(Cases(b, refs));
    ClaimsAreInBatch(b, refs);
    hide Cases, ClaimedBank, RenameIds, IdSet, Known, GatewaySettlement, Journals, ErpLines, Pick, RenameFacts;
    MirroredFacts(b, m, r, extra, reference, consumed);
    MirroredClaim(b, m, r, reference, consumed);
    RenamedUnion(r, consumed, IdSet(Pick(FactsOf(b, reference, consumed)).candidates));
  }
}
