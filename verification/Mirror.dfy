/** A second batch that mirrors a first: the same events renamed, plus extra ERP lines. */
module Mirror {
  import opened Events
  import opened Selection
  import opened Grouping
  import opened Context
  import opened SettlementRule
  import opened Renaming

  ghost predicate Mirrors(b: Batch, m: Batch, r: Renaming, extra: seq<Event>) {
    && WellFormed(b) && WellFormed(m)
    && m.scope == b.scope && m.policy == b.policy
    && Monotone(r, IdSet(b.events))
    && (forall x :: x in m.events <==> x in RenameAll(r, b.events) || x in extra)
    && (forall x | x in extra :: x.source == Erp)
  }

  /** A filter that none of the extra lines pass selects the renamed rows. */
  lemma {:induction false} MirroredSelect(b: Batch, m: Batch, r: Renaming, extra: seq<Event>, c: Criterion)
    requires Mirrors(b, m, r, extra) && ConsumedBy(c) <= IdSet(b.events)
    requires forall x | x in extra :: !Meets(x, RenameCriterion(r, c))
    ensures Select(m.events, RenameCriterion(r, c)) == RenameAll(r, Select(b.events, c))
  {
    var c' := RenameCriterion(r, c);
    RenamedSelect(r, IdSet(b.events), b.events, c);
    RenamedOrdered(r, b.events);
    SelectOrdered(m.events, c');
    SelectOrdered(RenameAll(r, b.events), c');
    SelectMembers(m.events, c');
    SelectMembers(RenameAll(r, b.events), c');
    hide Select, Meets, RenameAll, RenameCriterion, Ordered, Monotone;
    OrderedExtensional(Select(m.events, c'), Select(RenameAll(r, b.events), c'));
  }

  // ---- facts --------------------------------------------------------------------------------

  function RenameFacts(r: Renaming, f: Facts): Facts {
    Facts(f.reference, RenameAll(r, f.gateway), RenameAll(r, f.anchored), RenameAll(r, f.exact),
          RenameResult(r, f.search), RenameGroups(r, f.journals))
  }

  lemma {:induction false} RenamedSettlementRows(r: Renaming, gateway: seq<Event>)
    ensures SettlementRows(RenameAll(r, gateway)) == RenameAll(r, SettlementRows(gateway))
  {
    RenamedPlainSelect(r, gateway, OfKind({EventType.Settlement}));
  }

  lemma {:induction false} RenamedAnchor(r: Renaming, gateway: seq<Event>)
    requires gateway != []
    ensures RenameAll(r, gateway) != []
    ensures Anchor(RenameAll(r, gateway)) == Rename(r, Anchor(gateway))
    ensures Net(RenameAll(r, gateway)) == Net(gateway)
    ensures ExpectedUtr(RenameAll(r, gateway)) == ExpectedUtr(gateway)
  {
    RenamedSettlementRows(r, gateway);
    RenameAllAt(r, gateway, 0);
    if SettlementRows(gateway) != [] {
      RenameAllAt(r, SettlementRows(gateway), 0);
    }
    hide RenameAll, SettlementRows, NewId;
  }

  lemma {:induction false} SelectedIds(b: Batch, c: Criterion)
    ensures IdSet(Select(b.events, c)) <= IdSet(b.events)
  {
    SelectMembers(b.events, c);
  }

  lemma {:induction false} MonotoneOn(r: Renaming, ids: set<string>, part: set<string>)
    requires Monotone(r, ids) && part <= ids
    ensures Monotone(r, part)
  {
  }

  lemma {:induction false} MirroredGateway(b: Batch, m: Batch, r: Renaming, extra: seq<Event>, reference: string)
    requires Mirrors(b, m, r, extra)
    ensures GatewaySettlement(m, reference) == RenameAll(r, GatewaySettlement(b, reference))
  {
    hide Monotone, RenameAll, Select;
    MirroredSelect(b, m, r, extra, GatewayIn(b.scope, reference));
  }

  lemma {:induction false} MirroredBank(b: Batch, m: Batch, r: Renaming, extra: seq<Event>, utr: string, consumed: set<string>)
    requires Mirrors(b, m, r, extra) && consumed <= IdSet(b.events)
    ensures UtrRows(m, utr, RenameIds(r, consumed)) == RenameAll(r, UtrRows(b, utr, consumed))
  {
    hide Monotone, RenameAll, Select, RenameIds;
    MirroredSelect(b, m, r, extra, CarriesUtr(b.scope, utr, consumed));
  }

  lemma {:induction false} MirroredReceipts(b: Batch, m: Batch, r: Renaming, extra: seq<Event>, day: int, consumed: set<string>)
    requires Mirrors(b, m, r, extra) && consumed <= IdSet(b.events)
    ensures Receipts(m, day, RenameIds(r, consumed)) == RenameAll(r, Receipts(b, day, consumed))
  {
    hide RenameAll, Select, RenameIds, IdSet, Monotone, Ordered;
    MirroredSelect(b, m, r, extra, ReceiptBetween(b.scope, day + b.policy.minDays, day + b.policy.maxDays, consumed));
  }

  lemma {:induction false} ReceiptsKeepOrder(b: Batch, r: Renaming, day: int, consumed: set<string>)
    requires Ordered(b.events) && Monotone(r, IdSet(b.events))
    ensures Ordered(Receipts(b, day, consumed)) && Monotone(r, IdSet(Receipts(b, day, consumed)))
  {
    var c := ReceiptBetween(b.scope, day + b.policy.minDays, day + b.policy.maxDays, consumed);
    SelectOrdered(b.events, c);
    hide Select, IdSet, Ordered;
    SelectedIds(b, c);
    MonotoneOn(r, IdSet(b.events), IdSet(Receipts(b, day, consumed)));
  }

  lemma {:induction false} MirroredSearch(b: Batch, m: Batch, r: Renaming, extra: seq<Event>, day: int,
                                          consumed: set<string>, target: int)
    requires Mirrors(b, m, r, extra) && consumed <= IdSet(b.events)
    ensures Search(Receipts(m, day, RenameIds(r, consumed)), target, m.policy.grouping)
         == RenameResult(r, Search(Receipts(b, day, consumed), target, b.policy.grouping))
  {
    MirroredReceipts(b, m, r, extra, day, consumed);
    ReceiptsKeepOrder(b, r, day, consumed);
    hide Monotone, RenameAll, RenameIds, Search, Ordered, RenameResult, WellFormed, Receipts;
    RenamedSearch(r, Receipts(b, day, consumed), target, b.policy.grouping);
  }

  lemma {:induction false} MirroredJournals(b: Batch, m: Batch, r: Renaming, extra: seq<Event>, reference: string)
    requires Mirrors(b, m, r, extra)
    requires forall x | x in extra :: x.externalRef != reference
    ensures Journals(ErpLines(m, reference)) == RenameGroups(r, Journals(ErpLines(b, reference)))
  {
    hide Monotone, RenameAll, Select, RenameGroups, Journals;
    MirroredSelect(b, m, r, extra, ErpFor(b.scope, reference));
    RenamedJournals(r, ErpLines(b, reference));
  }

  /** The mirrored settlement sees the same facts, renamed; only its journals can show extra lines. */
  lemma {:induction false} MirroredFacts(b: Batch, m: Batch, r: Renaming, extra: seq<Event>, reference: string,
                                         consumed: set<string>)
    requires Mirrors(b, m, r, extra) && consumed <= IdSet(b.events) && GatewaySettlement(b, reference) != []
    ensures GatewaySettlement(m, reference) != []
    ensures FactsOf(m, reference, RenameIds(r, consumed))
         == RenameFacts(r, FactsOf(b, reference, consumed)).(journals := Journals(ErpLines(m, reference)))
    ensures (forall x | x in extra :: x.externalRef != reference) ==>
      FactsOf(m, reference, RenameIds(r, consumed)) == RenameFacts(r, FactsOf(b, reference, consumed))
  {
    var gateway := GatewaySettlement(b, reference);
    MirroredGateway(b, m, r, extra, reference);
    RenamedAnchor(r, gateway);
    hide Mirrors, Monotone, RenameAll, RenameGroups, RenameResult, RenameIds, GatewaySettlement, Search, Receipts, UtrRows,
         Journals, ErpLines, Net, ExpectedUtr;
    assert Anchor(RenameAll(r, gateway)).day == Anchor(gateway).day;
    assert Anchor(RenameAll(r, gateway)).externalRef == Anchor(gateway).externalRef;
    hide Anchor;
    MirroredBank(b, m, r, extra, Anchor(gateway).externalRef, consumed);
    MirroredBank(b, m, r, extra, ExpectedUtr(gateway), consumed);
    MirroredSearch(b, m, r, extra, Anchor(gateway).day, consumed, Net(gateway));
    if forall x | x in extra :: x.externalRef != reference {
      MirroredJournals(b, m, r, extra, reference);
    }
  }
}
