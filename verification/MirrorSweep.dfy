/** The members and orphans of a mirrored run are the renamed ones of the original. */
module MirrorSweep {
  import opened Events
  import opened TextOrder
  import opened Selection
  import opened Context
  import opened SettlementRule
  import opened CaseFacts
  import opened Pipeline
  import opened Partition
  import opened Renaming
  import opened Mirror
  import opened Invariance
  import opened MirrorRun

  // ---- members ------------------------------------------------------------------------------

  lemma {:induction false} RenamedInsert(r: Renaming, ids: set<string>, e: Event, s: seq<Event>)
    requires Monotone(r, ids) && e.eventId in ids && IdSet(s) <= ids
    ensures InsertById(Rename(r, e), RenameAll(r, s)) == RenameAll(r, InsertById(e, s))
  {
    if s != [] {
      assert s[0] in s && IdSet(s[1..]) <= ids;
      RenamedInsert(r, ids, e, s[1..]);
      assert Less(NewId(r, s[0].eventId), NewId(r, e.eventId)) <==> Less(s[0].eventId, e.eventId) by {
        Trichotomy(s[0].eventId, e.eventId);
        if !Less(s[0].eventId, e.eventId) && Less(NewId(r, s[0].eventId), NewId(r, e.eventId)) {
          Asymmetric(NewId(r, s[0].eventId), NewId(r, e.eventId));
        }
      }
      assert RenameAll(r, s)[1..] == RenameAll(r, s[1..]);
      hide Monotone, NewId, IdSet;
      if Less(s[0].eventId, e.eventId) {
        assert ([s[0]] + InsertById(e, s[1..]))[1..] == InsertById(e, s[1..]);
      } else {
        assert ([e] + s)[1..] == s;
      }
    }
  }

  lemma {:induction false} RenamedById(r: Renaming, ids: set<string>, s: seq<Event>)
    requires Monotone(r, ids) && IdSet(s) <= ids
    ensures ById(RenameAll(r, s)) == RenameAll(r, ById(s))
  {
    if s != [] {
      assert s[0] in s && IdSet(s[1..]) <= ids;
      RenamedById(r, ids, s[1..]);
      ByIdMembers(s[1..]);
      assert IdSet(ById(s[1..])) <= ids;
      RenamedInsert(r, ids, s[0], ById(s[1..]));
      assert RenameAll(r, s)[1..] == RenameAll(r, s[1..]);
    }
  }

  /** A renamed case has the renamed members. */
  lemma {:induction false} RenamedMembers(b: Batch, r: Renaming, reference: string, consumed: set<string>)
    requires Ordered(b.events) && Monotone(r, IdSet(b.events)) && GatewaySettlement(b, reference) != []
    ensures var f := FactsOf(b, reference, consumed); Members(RenameFacts(r, f)) == RenameAll(r, Members(f))
  {
    var f := FactsOf(b, reference, consumed);
    MembersOfCase(b, reference, consumed);
    CaseIsDrawnFrom(b, r, reference, consumed);
    RenamedPick(r, f, b.events);
    hide FactsOf, Pick, Monotone, GatewaySettlement, Ordered, Members, DrawnFrom, RenameAll, RenameGroups, Flatten, IdentifierConflict;
    RenamedFlatten(r, f.journals);
    var rows := f.gateway + Pick(f).candidates + Flatten(f.journals);
    RenameAllConcat(r, f.gateway, Pick(f).candidates);
    RenameAllConcat(r, f.gateway + Pick(f).candidates, Flatten(f.journals));
    assert IdSet(rows) <= IdSet(b.events);
    RenamedById(r, IdSet(b.events), rows);
    MembersUnfold(f);
    MembersUnfold(RenameFacts(r, f));
  }

  lemma MembersUnfold(f: Facts)
    ensures Members(f) == ById(f.gateway + Pick(f).candidates + Flatten(f.journals))
  {
    hide Pick, Flatten, ById;
  }

  // ---- orphans ------------------------------------------------------------------------------

  lemma {:induction false} MirroredOrphanBank(b: Batch, m: Batch, r: Renaming, extra: seq<Event>, refs: seq<string>)
    requires Mirrors(b, m, r, extra) && Known(b, refs) && Known(m, refs)
    ensures OrphanBank(m, Cases(m, refs)) == RenameAll(r, OrphanBank(b, Cases(b, refs)))
  {
    var cases := Cases(b, refs);
    MirroredCases(b, m, r, extra, refs);
    ClaimsAreInBatch(b, refs);
    hide Cases, ClaimedBank, Known, RenameIds, Select, RenameAll, WellFormed, Monotone, IdSet;
    MirroredSelect(b, m, r, extra, Unclaimed(Bank, ClaimedBank(cases)));
  }

  /** Is the ERP line of some settled reference? */
  ghost predicate PostedFor(b: Batch, refs: seq<string>, e: Event) {
    exists i :: 0 <= i < |refs| && refs[i] != "" && e.externalRef == refs[i] && InScope(e, b.scope)
  }

  lemma {:induction false} ClaimedWhenPosted(b: Batch, refs: seq<string>, e: Event)
    requires WellFormed(b) && Known(b, refs) && e in b.events && e.source == Erp
    ensures e.eventId !in ClaimedErp(Cases(b, refs)) <==> !PostedFor(b, refs, e)
  {
    var cases := Cases(b, refs);
    ErpLeftOver(b, refs, e);
    hide Cases, ClaimedErp, Known, Pick, WellFormed, GatewaySettlement, FactsOf, InScope, InCase;
    forall i: nat | i < |refs|
      ensures InCase(b, cases, i, e) <==> (refs[i] != "" && e.externalRef == refs[i] && InScope(e, b.scope))
    {
      CaseAt(b, refs, i);
      InCaseIsBelongs(b, cases, i, e);
    }
  }

  lemma {:induction false} UnclaimedErp(b: Batch, refs: seq<string>)
    requires WellFormed(b) && Known(b, refs)
    ensures Ordered(OrphanErpLines(b, Cases(b, refs)))
    ensures forall e ::
      e in OrphanErpLines(b, Cases(b, refs)) <==> e in b.events && e.source == Erp && !PostedFor(b, refs, e)
  {
    OrphanErpRows(b, Cases(b, refs));
    hide Cases, ClaimedErp, Known, OrphanErpLines, OrphanErp, PostedFor, Ordered;
    forall e | e in b.events && e.source == Erp
      ensures e.eventId !in ClaimedErp(Cases(b, refs)) <==> !PostedFor(b, refs, e)
    {
      ClaimedWhenPosted(b, refs, e);
    }
  }

  /** Extra lines for settled references are claimed, so the orphaned ERP lines stay what they were. */
  lemma {:induction false} MirroredOrphanErp(b: Batch, m: Batch, r: Renaming, extra: seq<Event>, refs: seq<string>)
    requires Mirrors(b, m, r, extra) && Known(b, refs) && Known(m, refs)
    requires forall x | x in extra :: PostedFor(m, refs, x)
    ensures OrphanErp(m, Cases(m, refs)) == RenameGroups(r, OrphanErp(b, Cases(b, refs)))
  {
    var before, after := OrphanErpLines(b, Cases(b, refs)), OrphanErpLines(m, Cases(m, refs));
    UnclaimedErp(b, refs);
    UnclaimedErp(m, refs);
    hide Cases, Known, OrphanErpLines, Monotone;
    assert Ordered(RenameAll(r, before)) by {
      SubsetMonotone(r, before, b.events);
      RenamedOrdered(r, before);
    }
    RenameAllMembers(r, before);
    RenameAllMembers(r, b.events);
    hide Ordered, RenameAll;
    forall x ensures x in after <==> x in RenameAll(r, before) {
      if y :| y in b.events && x == Rename(r, y) {
        assert x.source == y.source && (PostedFor(m, refs, x) <==> PostedFor(b, refs, y));
      }
    }
    OrderedExtensional(after, RenameAll(r, before));
    RenamedJournals(r, before);
    OrphanErpRows(b, Cases(b, refs));
    OrphanErpRows(m, Cases(m, refs));
  }
}
