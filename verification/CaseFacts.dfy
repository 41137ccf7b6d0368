/** What the selections behind one settlement case contain. */
module CaseFacts {
  import opened Events
  import opened TextOrder
  import opened Selection
  import opened Grouping
  import opened Context
  import opened SettlementRule

  lemma {:induction false} FlattenMembers(groups: seq<seq<Event>>, e: Event)
    ensures e in Flatten(groups) <==> exists g :: g in groups && e in g
  {
    if groups != [] {
      FlattenMembers(groups[1..], e);
      assert groups == [groups[0]] + groups[1..];
    }
  }

  lemma {:induction false} OnePerIdMembers(s: seq<Event>, universe: seq<Event>)
    requires Ordered(universe) && forall e | e in s :: e in universe
    ensures forall e :: e in OnePerId(s) <==> e in s
    ensures UniqueIds(OnePerId(s))
  {
    if s != [] {
      var init, last := s[..|s| - 1], s[|s| - 1];
      assert s == init + [last];
      OnePerIdMembers(init, universe);
      var before := OnePerId(init);
      assert forall k | 0 <= k < |before| :: Ids(before)[k] == before[k].eventId;
      if last.eventId in Ids(before) {
        var k :| 0 <= k < |before| && Ids(before)[k] == last.eventId;
        assert before[k] in init;
        IdDeterminesEvent(universe, before[k], last);
      } else {
        forall k | 0 <= k < |before| ensures before[k].eventId != last.eventId {
          assert Ids(before)[k] in Ids(before);
        }
      }
    }
  }

  /** The rows considered in an ambiguous search: those of all groups, ordered, each once. */
  lemma {:induction false} ConsideredMembers(groups: seq<Group>, universe: seq<Event>)
    requires Ordered(universe) && forall g, e | g in groups && e in g :: e in universe
    ensures Ordered(Considered(groups))
    ensures forall e :: e in Considered(groups) <==> exists g :: g in groups && e in g
  {
    hide Ordered, OnePerId, Flatten;
    forall e ensures e in Flatten(groups) <==> exists g :: g in groups && e in g {
      FlattenMembers(groups, e);
    }
    OnePerIdMembers(Flatten(groups), universe);
    ByIdOrdered(OnePerId(Flatten(groups)));
    ByIdMembers(OnePerId(Flatten(groups)));
  }

  // ---- journals -----------------------------------------------------------------------------

  lemma {:induction false} JournalOfLine(lines: seq<Event>, e: Event)
    requires e in lines
    ensures exists i :: 0 <= i < |Journals(lines)| && e in Journals(lines)[i]
  {
    var ids, keys := SortedDistinct(JournalKeys(lines)), JournalKeys(lines);
    SortedDistinctMembers(keys);
    var k :| 0 <= k < |lines| && lines[k] == e;
    assert keys[k] in keys;
    var i :| 0 <= i < |ids| && ids[i] == keys[k];
    SelectMembers(lines, InJournal(ids[i]));
    assert e in Journals(lines)[i];
  }

  /** Journals partition their lines: nothing is lost, no journal is empty, and the lines of a
      journal are exactly those with its id. */
  lemma {:induction false} JournalsPartition(lines: seq<Event>)
    requires Ordered(lines)
    ensures forall e :: e in Flatten(Journals(lines)) <==> e in lines
    ensures forall g | g in Journals(lines) :: g != [] && Ordered(g)
    ensures forall i, j, e | 0 <= i < j < |Journals(lines)| :: !(e in Journals(lines)[i] && e in Journals(lines)[j])
    ensures lines == [] <==> Journals(lines) == []
  {
    var keys := JournalKeys(lines);
    var ids, groups := SortedDistinct(keys), Journals(lines);
    SortedDistinctMembers(keys);
    SortedDistinctAscending(keys);
    hide SortedDistinct, JournalId, Ordered, Less, Flatten;
    forall i | 0 <= i < |groups|
      ensures groups[i] != [] && Ordered(groups[i])
      ensures forall e :: e in groups[i] <==> e in lines && JournalId(e.recordId) == ids[i]
    {
      SelectMembers(lines, InJournal(ids[i]));
      SelectOrdered(lines, InJournal(ids[i]));
      assert ids[i] in keys;
      var k :| 0 <= k < |keys| && keys[k] == ids[i];
      assert lines[k] in groups[i];
    }
    forall e ensures e in Flatten(groups) <==> e in lines {
      FlattenMembers(groups, e);
      if e in lines {
        JournalOfLine(lines, e);
      }
    }
    forall i, j, e | 0 <= i < j < |groups| && e in groups[i] ensures e !in groups[j] {
      if ids[i] == ids[j] {
        AscendingHasNoRepeats(ids, i, j);
      }
    }
    if lines != [] {
      JournalOfLine(lines, lines[0]);
    }
    if groups != [] {
      assert groups[0][0] in lines;
    }
  }

  // ---- the bank pick ------------------------------------------------------------------------

  lemma {:induction false} GatewayFacts(b: Batch, reference: string)
    ensures forall e ::
      e in GatewaySettlement(b, reference) <==>
      e in b.events && reference != "" && e.settlementRef == reference && e.source == Gateway && InScope(e, b.scope)
    ensures Ordered(b.events) ==> Ordered(GatewaySettlement(b, reference))
  {
    SelectMembers(b.events, GatewayIn(b.scope, reference));
    if Ordered(b.events) {
      SelectOrdered(b.events, GatewayIn(b.scope, reference));
    }
  }

  /** A free bank row of the batch. */
  ghost predicate FreeBankRow(b: Batch, consumed: set<string>, e: Event) {
    e in b.events && e.source == Bank && e.eventId !in consumed
  }

  lemma {:induction false} UtrRowsFacts(b: Batch, utr: string, consumed: set<string>)
    requires Ordered(b.events)
    ensures Ordered(UtrRows(b, utr, consumed))
    ensures forall e ::
      e in UtrRows(b, utr, consumed) <==>
      (FreeBankRow(b, consumed, e) && InScope(e, b.scope) && utr != "" && e.utr == utr)
  {
    SelectMembers(b.events, CarriesUtr(b.scope, utr, consumed));
    SelectOrdered(b.events, CarriesUtr(b.scope, utr, consumed));
  }

  ghost predicate IsReceipt(b: Batch, day: int, consumed: set<string>, e: Event) {
    && FreeBankRow(b, consumed, e) && InScope(e, b.scope)
    && e.kind == BankCredit && e.direction == Credit
    && e.valueDate.Some? && b.policy.minDays <= e.valueDate.value - day <= b.policy.maxDays
  }

  lemma {:induction false} ReceiptsFacts(b: Batch, day: int, consumed: set<string>)
    requires Ordered(b.events)
    ensures Ordered(Receipts(b, day, consumed))
    ensures forall e :: e in Receipts(b, day, consumed) <==> IsReceipt(b, day, consumed, e)
  {
    var c := ReceiptBetween(b.scope, day + b.policy.minDays, day + b.policy.maxDays, consumed);
    SelectMembers(b.events, c);
    SelectOrdered(b.events, c);
  }

  /** The rows picked and the rows considered are free bank rows; the former are among the latter. */
  ghost predicate SoundPick(b: Batch, consumed: set<string>, pick: BankPick) {
    && Ordered(pick.candidates) && Ordered(pick.rows)
    && (forall e :: e in pick.candidates ==> FreeBankRow(b, consumed, e))
    && (forall e :: e in pick.rows ==> e in pick.candidates)
    && (pick.rows == [] <==> pick.candidates == [])
  }

  lemma {:induction false} SearchedGroups(b: Batch, day: int, consumed: set<string>, target: int)
    requires Ordered(b.events)
    ensures forall g, e ::
      g in Search(Receipts(b, day, consumed), target, b.policy.grouping).groups && e in g ==>
      IsReceipt(b, day, consumed, e)
    ensures forall g | g in Search(Receipts(b, day, consumed), target, b.policy.grouping).groups :: g != [] && Ordered(g)
  {
    ReceiptsFacts(b, day, consumed);
    hide Receipts, Search, Ordered, InSearchOrder, Precedes, Total, IsReceipt;
    var receipts := Receipts(b, day, consumed);
    OrderedIsUnique(receipts);
    SearchIsExact(receipts, target, b.policy.grouping);
  }

  lemma {:induction false} SelectedGroupIsSound(b: Batch, consumed: set<string>, search: GroupingResult, anchored: seq<Event>)
    requires Ordered(b.events) && Ordered(anchored)
    requires forall e :: e in anchored ==> FreeBankRow(b, consumed, e)
    requires forall g, e :: g in search.groups && e in g ==> FreeBankRow(b, consumed, e)
    requires forall g | g in search.groups :: g != [] && Ordered(g)
    ensures SoundPick(b, consumed, SelectBankGroup(search, anchored))
  {
    hide Considered;
    var groups := search.groups;
    if |groups| > 1 {
      forall g, e | g in groups && e in g ensures e in b.events {
        assert FreeBankRow(b, consumed, e);
      }
      ConsideredMembers(groups, b.events);
      assert groups[0] in groups;
      assert groups[0][0] in groups[0];
      assert groups[0][0] in Considered(groups);
    } else if |groups| == 1 {
      assert groups[0] in groups;
    }
  }

  lemma {:induction false} PickIsSound(b: Batch, reference: string, consumed: set<string>)
    requires Ordered(b.events) && GatewaySettlement(b, reference) != []
    ensures SoundPick(b, consumed, Pick(FactsOf(b, reference, consumed)))
  {
    var f := FactsOf(b, reference, consumed);
    var day := Anchor(f.gateway).day;
    UtrRowsFacts(b, Anchor(f.gateway).externalRef, consumed);
    UtrRowsFacts(b, ExpectedUtr(f.gateway), consumed);
    SearchedGroups(b, day, consumed, Net(f.gateway));
    hide UtrRows, Receipts, Search, Anchor, ExpectedUtr, Net, Total, GatewaySettlement, SelectBankGroup;
    SelectedGroupIsSound(b, consumed, f.search, f.anchored);
  }

  lemma {:induction false} ErpFacts(b: Batch, reference: string)
    requires Ordered(b.events)
    ensures Ordered(ErpLines(b, reference))
    ensures forall e ::
      e in ErpLines(b, reference) <==>
      e in b.events && reference != "" && e.externalRef == reference && e.source == Erp && InScope(e, b.scope)
  {
    SelectMembers(b.events, ErpFor(b.scope, reference));
    SelectOrdered(b.events, ErpFor(b.scope, reference));
  }

  // ---- members of the case ------------------------------------------------------------------

  lemma {:induction false} UniqueConcat(s: seq<Event>, t: seq<Event>)
    requires UniqueIds(s) && UniqueIds(t) && forall x, y | x in s && y in t :: x.eventId != y.eventId
    ensures UniqueIds(s + t)
  {
  }

  lemma {:induction false} FlattenUnique(groups: seq<seq<Event>>, universe: seq<Event>)
    requires Ordered(universe) && forall g, e | g in groups && e in g :: e in universe
    requires forall g | g in groups :: Ordered(g)
    requires forall i, j, e | 0 <= i < j < |groups| :: !(e in groups[i] && e in groups[j])
    ensures UniqueIds(Flatten(groups))
  {
    if groups != [] {
      var rest := groups[1..];
      assert forall i, j, e | 0 <= i < j < |rest| :: !(e in rest[i] && e in rest[j]) by {
        forall i, j, e | 0 <= i < j < |rest| && e in rest[i] ensures e !in rest[j] {
          assert e in groups[i + 1];
        }
      }
      FlattenUnique(rest, universe);
      OrderedIsUnique(groups[0]);
      forall x, y | x in groups[0] && y in Flatten(rest) ensures x.eventId != y.eventId {
        FlattenMembers(rest, y);
        var g :| g in rest && y in g;
        var j :| 0 <= j < |rest| && rest[j] == g;
        assert groups[j + 1] == g && y !in groups[0];
        assert groups[0] in groups && g in groups;
        if x.eventId == y.eventId {
          IdDeterminesEvent(universe, x, y);
        }
      }
      UniqueConcat(groups[0], Flatten(rest));
    }
  }

  /** Which rows of the batch belong to the case: its gateway rows, the bank rows considered,
      and its ERP lines. */
  ghost predicate Belongs(b: Batch, f: Facts, e: Event) {
    && e in b.events
    && match e.source
       case Gateway => f.reference != "" && e.settlementRef == f.reference && InScope(e, b.scope)
       case Bank => e in Pick(f).candidates
       case Erp => f.reference != "" && e.externalRef == f.reference && InScope(e, b.scope)
  }

  lemma {:induction false} MembersOfCase(b: Batch, reference: string, consumed: set<string>)
    requires Ordered(b.events) && GatewaySettlement(b, reference) != []
    ensures var f := FactsOf(b, reference, consumed);
      && Ordered(Members(f))
      && UniqueIds(f.gateway + Pick(f).candidates + Flatten(f.journals))
      && (forall e :: e in Members(f) <==> Belongs(b, f, e))
      && (forall e :: e in f.gateway <==> Belongs(b, f, e) && e.source == Gateway)
      && (forall e :: e in Pick(f).candidates <==> Belongs(b, f, e) && e.source == Bank)
      && (forall e :: e in Flatten(f.journals) <==> Belongs(b, f, e) && e.source == Erp)
  {
    var f := FactsOf(b, reference, consumed);
    GatewayFacts(b, reference);
    PickIsSound(b, reference, consumed);
    ErpFacts(b, reference);
    var lines := ErpLines(b, reference);
    JournalsPartition(lines);
    hide Pick, Journals, GatewaySettlement, ErpLines, Ordered, Flatten, ById;
    forall g, e | g in f.journals && e in g ensures e in lines {
      FlattenMembers(f.journals, e);
    }
    FlattenUnique(f.journals, lines);
    CombineParts(b, f);
  }

  lemma {:induction false} CombineParts(b: Batch, f: Facts)
    requires Ordered(b.events) && Ordered(f.gateway) && Ordered(Pick(f).candidates) && UniqueIds(Flatten(f.journals))
    requires forall e :: e in f.gateway <==> Belongs(b, f, e) && e.source == Gateway
    requires forall e :: e in Pick(f).candidates <==> Belongs(b, f, e) && e.source == Bank
    requires forall e :: e in Flatten(f.journals) <==> Belongs(b, f, e) && e.source == Erp
    ensures UniqueIds(f.gateway + Pick(f).candidates + Flatten(f.journals))
    ensures Ordered(Members(f)) && forall e :: e in Members(f) <==> Belongs(b, f, e)
  {
    hide Pick, Flatten, ById, Ordered;
    var g, c, j := f.gateway, Pick(f).candidates, Flatten(f.journals);
    forall x, y | Belongs(b, f, x) && Belongs(b, f, y) && x.source != y.source ensures x.eventId != y.eventId {
      if x.eventId == y.eventId {
        IdDeterminesEvent(b.events, x, y);
      }
    }
    OrderedIsUnique(g);
    OrderedIsUnique(c);
    UniqueConcat(g, c);
    UniqueConcat(g + c, j);
    ByIdOrdered(g + c + j);
    ByIdMembers(g + c + j);
  }
}
