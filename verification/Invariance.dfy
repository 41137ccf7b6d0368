/** A renaming leaves every verdict on a settlement unchanged. */
module Invariance {
  import opened Events
  import opened Selection
  import opened Grouping
  import opened Proposals
  import opened SettlementRule
  import opened Verdicts
  import opened Renaming
  import opened Mirror

  /** The competing groups are drawn from one ordered list whose order the renaming keeps. */
  ghost predicate DrawnFrom(r: Renaming, f: Facts, universe: seq<Event>) {
    && Ordered(universe) && Monotone(r, IdSet(universe))
    && forall g, e | g in f.search.groups && e in g :: e in universe
  }

  function RenamePick(r: Renaming, pick: BankPick): BankPick {
    BankPick(RenameAll(r, pick.rows), RenameAll(r, pick.candidates), pick.ambiguous, pick.bounded)
  }

  lemma {:induction false} RenamedSelectBankGroup(r: Renaming, search: GroupingResult, anchored: seq<Event>, universe: seq<Event>)
    requires Ordered(universe) && Monotone(r, IdSet(universe))
    requires forall g, e | g in search.groups && e in g :: e in universe
    ensures SelectBankGroup(RenameResult(r, search), RenameAll(r, anchored)) == RenamePick(r, SelectBankGroup(search, anchored))
  {
    if search.groups != [] {
      RenameGroupsAt(r, search.groups, 0);
    }
    RenamedConsidered(r, search.groups, universe);
    if |anchored| > 1 {
      assert anchored == anchored[..1] + anchored[1..];
      RenameAllConcat(r, anchored[..1], anchored[1..]);
    }
    RenamedNothing(r);
    hide RenameAll, RenameGroups, Considered, Ordered, Monotone;
  }

  lemma {:induction false} RenamedPick(r: Renaming, f: Facts, universe: seq<Event>)
    requires f.gateway != [] && DrawnFrom(r, f, universe)
    ensures IdentifierConflict(RenameFacts(r, f)) <==> IdentifierConflict(f)
    ensures Pick(RenameFacts(r, f)) == RenamePick(r, Pick(f))
  {
    RenamedTotal(r, f.exact);
    RenamedAnchor(r, f.gateway);
    RenamedSelectBankGroup(r, f.search, f.anchored, universe);
    hide RenameAll, RenameGroups, RenameResult, SelectBankGroup, Ordered, Monotone, Total, Net, Anchor, ExpectedUtr;
  }

  // ---- sums ---------------------------------------------------------------------------------

  lemma {:induction false} RenamedSums(r: Renaming, p: Policy, f: Facts)
    requires f.gateway != []
    ensures ExpectedNet(p, RenameFacts(r, f)) == ExpectedNet(p, f)
    ensures ClearingExpected(p, RenameFacts(r, f)) == ClearingExpected(p, f)
    ensures KindTotal(RenameFacts(r, f), Fee) == KindTotal(f, Fee)
    ensures KindTotal(RenameFacts(r, f), Tax) == KindTotal(f, Tax)
  {
    hide Select, RenameAll, SignedTotal, Total;
    RenamedPlainSelect(r, f.gateway, NotOfKind(EventType.Settlement));
    RenamedPlainSelect(r, f.gateway, OfKind({Payment, Refund, Adjustment}));
    RenamedPlainSelect(r, f.gateway, OfKind({Fee}));
    RenamedPlainSelect(r, f.gateway, OfKind({Tax}));
    RenamedSignedTotal(r, p, Select(f.gateway, NotOfKind(EventType.Settlement)));
    RenamedSignedTotal(r, p, Select(f.gateway, OfKind({Payment, Refund, Adjustment})));
    RenamedTotal(r, Select(f.gateway, OfKind({Fee})));
    RenamedTotal(r, Select(f.gateway, OfKind({Tax})));
  }

  lemma {:induction false} RenamedJournal(r: Renaming, f: Facts)
    ensures Journal(RenameFacts(r, f)) == RenameAll(r, Journal(f))
    ensures Journal(RenameFacts(r, f)) == [] <==> Journal(f) == []
  {
    if |f.journals| == 1 {
      RenameGroupsAt(r, f.journals, 0);
    }
    hide RenameGroups;
  }

  lemma {:induction false} RenamedPostings(r: Renaming, f: Facts, role: Role, side: Direction)
    ensures Posted(RenameFacts(r, f), role) == Posted(f, role)
    ensures SideTotal(RenameFacts(r, f), side) == SideTotal(f, side)
  {
    RenamedJournal(r, f);
    RenamedPlainSelect(r, Journal(f), PostedTo(role));
    RenamedPlainSelect(r, Journal(f), OnSide(side));
    hide Select, RenameAll, Total, Journal;
    RenamedTotal(r, Select(Journal(f), PostedTo(role)));
    RenamedTotal(r, Select(Journal(f), OnSide(side)));
  }

  // ---- the conditions -----------------------------------------------------------------------

  lemma {:induction false} RenamedReceipt(r: Renaming, p: Policy, f: Facts, universe: seq<Event>)
    requires f.gateway != [] && DrawnFrom(r, f, universe)
    ensures var f' := RenameFacts(r, f);
      && (BankPresent(f') <==> BankPresent(f))
      && (BankAmountAgrees(p, f') <==> BankAmountAgrees(p, f))
      && (BankUnique(f') <==> BankUnique(f)) && (IsAmbiguous(f') <==> IsAmbiguous(f))
  {
    RenamedPick(r, f, universe);
    RenamedAnchor(r, f.gateway);
    RenamedTotal(r, Pick(f).rows);
    hide Pick, RenameAll, RenameGroups, RenameResult, Total, Net, ExpectedUtr, Anchor, DrawnFrom, Gap, IdentifierConflict;
  }

  lemma {:induction false} RenamedDirections(r: Renaming, rows: seq<Event>)
    ensures (forall e | e in RenameAll(r, rows) :: e.direction == Credit) <==> forall e | e in rows :: e.direction == Credit
  {
    if rows != [] {
      RenamedDirections(r, rows[1..]);
      var rest := RenameAll(r, rows[1..]);
      assert rows == [rows[0]] + rows[1..];
      assert RenameAll(r, rows) == [Rename(r, rows[0])] + rest;
      assert forall e :: e in RenameAll(r, rows) <==> e == Rename(r, rows[0]) || e in rest;
      assert forall e :: e in rows <==> e == rows[0] || e in rows[1..];
      hide RenameAll;
    }
  }

  lemma {:induction false} RenamedUtrs(r: Renaming, rows: seq<Event>, utr: string)
    ensures (forall e | e in RenameAll(r, rows) :: e.utr == utr) <==> forall e | e in rows :: e.utr == utr
  {
    if rows != [] {
      RenamedUtrs(r, rows[1..], utr);
      var rest := RenameAll(r, rows[1..]);
      assert rows == [rows[0]] + rows[1..];
      assert RenameAll(r, rows) == [Rename(r, rows[0])] + rest;
      assert forall e :: e in RenameAll(r, rows) <==> e == Rename(r, rows[0]) || e in rest;
      assert forall e :: e in rows <==> e == rows[0] || e in rows[1..];
      hide RenameAll;
    }
  }

  ghost predicate DatedWithin(p: Policy, day: int, e: Event) {
    e.valueDate.Some? && p.minDays <= e.valueDate.value - day <= p.maxDays
  }

  lemma {:induction false} RenamedDates(r: Renaming, rows: seq<Event>, p: Policy, day: int)
    ensures (forall e | e in RenameAll(r, rows) :: DatedWithin(p, day, e)) <==> forall e | e in rows :: DatedWithin(p, day, e)
  {
    if rows != [] {
      RenamedDates(r, rows[1..], p, day);
      var rest := RenameAll(r, rows[1..]);
      assert rows == [rows[0]] + rows[1..];
      assert RenameAll(r, rows) == [Rename(r, rows[0])] + rest;
      assert forall e :: e in RenameAll(r, rows) <==> e == Rename(r, rows[0]) || e in rest;
      assert forall e :: e in rows <==> e == rows[0] || e in rows[1..];
      assert DatedWithin(p, day, Rename(r, rows[0])) <==> DatedWithin(p, day, rows[0]);
      hide RenameAll, DatedWithin;
      assert rows[0] in rows && Rename(r, rows[0]) in RenameAll(r, rows);
    }
  }

  lemma {:induction false} RenamedIdentity(r: Renaming, p: Policy, f: Facts, universe: seq<Event>)
    requires f.gateway != [] && DrawnFrom(r, f, universe)
    ensures var f' := RenameFacts(r, f);
      && (AllCredits(f') <==> AllCredits(f))
      && (UtrAgrees(f') <==> UtrAgrees(f))
      && (DatesFit(p, f') <==> DatesFit(p, f))
  {
    var rows := Pick(f).rows;
    RenamedPick(r, f, universe);
    RenamedAnchor(r, f.gateway);
    var day := Anchor(f.gateway).day;
    assert Anchor(RenameAll(r, f.gateway)).day == day;
    RenamedDirections(r, rows);
    RenamedUtrs(r, rows, ExpectedUtr(f.gateway));
    RenamedDates(r, rows, p, day);
    DatesFitMeans(p, f);
    DatesFitMeans(p, RenameFacts(r, f));
    hide Pick, RenameAll, RenameGroups, RenameResult, ExpectedUtr, Anchor, DrawnFrom, IdentifierConflict, DatesFit;
  }

  lemma DatesFitMeans(p: Policy, f: Facts)
    requires f.gateway != []
    ensures DatesFit(p, f) <==> BankPresent(f) && forall e | e in Pick(f).rows :: DatedWithin(p, Anchor(f.gateway).day, e)
  {
    hide Pick, Anchor;
  }

  lemma {:induction false} RenamedTarget(r: Renaming, p: Policy, f: Facts, i: nat)
    requires f.gateway != [] && i < 4
    ensures TargetMet(p, RenameFacts(r, f), i) <==> TargetMet(p, f, i)
  {
    RenamedJournal(r, f);
    RenamedSums(r, p, f);
    RenamedAnchor(r, f.gateway);
    RenamedPostings(r, f, RoleTargets(p, f)[i].1, Debit);
    hide Journal, RenameAll, RenameGroups, RenameResult, Posted, SideTotal, ClearingExpected, KindTotal, Net, Anchor,
         ExpectedUtr, Gap, ExpectedNet;
  }

  lemma {:induction false} RenamedErp(r: Renaming, p: Policy, f: Facts)
    requires f.gateway != []
    ensures var f' := RenameFacts(r, f);
      && (Balanced(f') <==> Balanced(f)) && (IsInvalid(f') <==> IsInvalid(f))
      && (forall i: nat | i < 4 :: TargetMet(p, f', i) <==> TargetMet(p, f, i))
      && (RolesAgree(p, f') <==> RolesAgree(p, f))
  {
    var f' := RenameFacts(r, f);
    RenamedJournal(r, f);
    RenamedPostings(r, f, p.bankRole, Debit);
    RenamedPostings(r, f, p.bankRole, Credit);
    hide Journal, RenameAll, RenameGroups, RenameResult, SideTotal, TargetMet, Posted;
    forall i: nat | i < 4 ensures TargetMet(p, f', i) <==> TargetMet(p, f, i) {
      RenamedTarget(r, p, f, i);
    }
  }

  lemma {:induction false} RenamedGatewayConditions(r: Renaming, p: Policy, f: Facts)
    requires f.gateway != []
    ensures var f' := RenameFacts(r, f);
      && (SettlementUnique(f') <==> SettlementUnique(f))
      && (ComponentsAgree(p, f') <==> ComponentsAgree(p, f))
      && (SettlementRows(f'.gateway) == [] <==> SettlementRows(f.gateway) == [])
  {
    RenamedSettlementRows(r, f.gateway);
    RenamedSums(r, p, f);
    RenamedAnchor(r, f.gateway);
    hide SettlementRows, RenameAll, RenameGroups, RenameResult, Net, Anchor, ExpectedUtr, ExpectedNet, Gap;
  }

  // ---- verdicts -----------------------------------------------------------------------------

  lemma {:induction false} SameReasons(r: Renaming, p: Policy, f: Facts, universe: seq<Event>)
    requires f.gateway != [] && DrawnFrom(r, f, universe)
    ensures Reasons(p, RenameFacts(r, f)) == Reasons(p, f)
  {
    var f' := RenameFacts(r, f);
    hide SettlementUnique, ComponentsAgree, BankPresent, BankAmountAgrees, AllCredits, UtrAgrees, DatesFit, BankUnique,
         Balanced, TargetMet, IsAmbiguous, IsInvalid, RolesAgree, IdentifierConflict, Pick, RenameAll, RenameGroups,
         RenameResult, DrawnFrom, SettlementRows, WithoutRepeats;
    assert GatewayReasons(p, f') == GatewayReasons(p, f) by {
      RenamedGatewayConditions(r, p, f);
    }
    assert BankReasons(p, f') == BankReasons(p, f) by {
      RenamedReceipt(r, p, f, universe);
      RenamedIdentity(r, p, f, universe);
      RenamedPick(r, f, universe);
    }
    assert ErpReasons(p, f') == ErpReasons(p, f) by {
      RenamedErp(r, p, f);
    }
    hide GatewayReasons, BankReasons, ErpReasons;
  }

  /** Every condition of a settlement survives a renaming. */
  lemma {:induction false} SameHolds(r: Renaming, p: Policy, f: Facts, universe: seq<Event>, code: CheckCode)
    requires f.gateway != [] && DrawnFrom(r, f, universe) && code in FIFTEEN
    ensures Holds(p, RenameFacts(r, f), code) <==> Holds(p, f, code)
  {
    hide SettlementUnique, ComponentsAgree, BankPresent, BankAmountAgrees, AllCredits, UtrAgrees, DatesFit, BankUnique,
         Balanced, TargetMet, IsAmbiguous, IsInvalid, RolesAgree, Pick, RenameAll, RenameResult, DrawnFrom,
         SettlementRows, FIFTEEN;
    RenamedReceipt(r, p, f, universe);
    RenamedIdentity(r, p, f, universe);
    RenamedErp(r, p, f);
    RenamedGatewayConditions(r, p, f);
  }

  lemma {:induction false} SameFlags(r: Renaming, p: Policy, f: Facts, universe: seq<Event>)
    requires f.gateway != [] && DrawnFrom(r, f, universe)
    ensures var f' := RenameFacts(r, f);
      && (ComponentsAgree(p, f') <==> ComponentsAgree(p, f))
      && (HardUnique(f') <==> HardUnique(f)) && (IsAmbiguous(f') <==> IsAmbiguous(f)) && (IsInvalid(f') <==> IsInvalid(f))
  {
    hide SettlementUnique, ComponentsAgree, BankPresent, BankAmountAgrees, AllCredits, UtrAgrees, DatesFit, BankUnique,
         Balanced, TargetMet, IsAmbiguous, IsInvalid, RolesAgree, Pick, RenameAll, RenameResult, DrawnFrom,
         SettlementRows;
    RenamedReceipt(r, p, f, universe);
    RenamedErp(r, p, f);
    RenamedGatewayConditions(r, p, f);
  }
}
