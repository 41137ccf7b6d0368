/** What a drafted journal says, told by the rows of its case. */
module Drafts {
  import opened Events
  import opened TextOrder
  import opened Selection
  import opened Ledger
  import opened Drafting

  /** What the gateway rows of one kind add up to. */
  function GatewayAmount(events: seq<Event>, kind: EventType): nat {
    if events == [] then 0
    else (if events[0].source == Gateway && events[0].kind == kind then events[0].amount else 0) + GatewayAmount(events[1..], kind)
  }

  lemma {:induction false} AmountsOfKind(events: seq<Event>, kind: EventType)
    ensures Total(OfThese(events, {kind})) == GatewayAmount(events, kind)
  {
    if events != [] {
      AmountsOfKind(events[1..], kind);
      var rest := FromGateway(events[1..]);
      SelectHead(events, FromSource(Gateway));
      if events[0].source == Gateway {
        SelectHead([events[0]] + rest, OfKind({kind}));
        assert ([events[0]] + rest)[1..] == rest;
      }
      hide Select;
    }
  }

  // ---- lines --------------------------------------------------------------------------------

  /** The line posts the amount to the smallest account of the role, on its side, in the policy's currency. */
  ghost predicate PostsTo(line: JournalLine, p: Policy, role: Role, amount: nat, narration: string) {
    && line.account in role.accounts && (forall other | other in role.accounts :: !Less(other, line.account))
    && line.amount == amount && line.direction == role.direction && line.currency == p.currency && line.narration == narration
  }

  /** The line cites the row as its source. */
  ghost predicate CitedBy(line: JournalLine, e: Event) {
    exists l :: l in line.links && l.eventId == e.eventId && l.purpose == JournalSource
  }

  /** The line cites one row for each of its links, and exactly the gateway rows of these kinds. */
  ghost predicate CitesKinds(line: JournalLine, events: seq<Event>, kinds: set<EventType>) {
    && (forall e | e in events && e.source == Gateway && e.kind in kinds :: CitedBy(line, e))
    && (forall l | l in line.links :: exists e :: e in events && e.source == Gateway && e.kind in kinds && e.eventId == l.eventId)
  }

  lemma {:induction false} SourcesCite(line: JournalLine, rows: seq<Event>)
    requires line.links == Sources(rows)
    ensures forall e | e in rows :: CitedBy(line, e)
    ensures forall l | l in line.links :: exists e :: e in rows && e.eventId == l.eventId
  {
    forall e | e in rows ensures CitedBy(line, e) {
      var i :| 0 <= i < |rows| && rows[i] == e;
      assert line.links[i] in line.links;
    }
    forall l | l in line.links ensures exists e :: e in rows && e.eventId == l.eventId {
      var i :| 0 <= i < |line.links| && line.links[i] == l;
      assert rows[i] in rows;
    }
  }

  lemma {:induction false} LineOfRole(p: Policy, role: Role, amount: nat, narration: string, events: seq<Event>, kinds: set<EventType>)
    requires role.accounts != {}
    ensures var line := RoleLine(p, role, amount, narration, OfThese(events, kinds));
      PostsTo(line, p, role, amount, narration) && CitesKinds(line, events, kinds)
  {
    var line := RoleLine(p, role, amount, narration, OfThese(events, kinds));
    SourcesCite(line, OfThese(events, kinds));
    SelectMembers(events, FromSource(Gateway));
    SelectMembers(FromGateway(events), OfKind(kinds));
    hide Select, Sources, CitedBy;
  }

  lemma {:induction false} TheCredit(events: seq<Event>)
    requires |BankCredits(events)| == 1
    ensures forall e :: e in events && e.source == Bank && e.direction == Credit <==> e == BankCredits(events)[0]
  {
    SelectMembers(events, FromSource(Bank));
    SelectMembers(Select(events, FromSource(Bank)), OnSide(Credit));
    hide Select;
    var credits := BankCredits(events);
    assert credits == [credits[0]];
    forall e ensures e in events && e.source == Bank && e.direction == Credit <==> e == credits[0] {
      assert e in Select(Select(events, FromSource(Bank)), OnSide(Credit)) <==> e in credits;
    }
  }

  /** The lines of a draft on a case with the given bank credit: the receipt to the bank role, fees and taxes to theirs
      if there are any, and all of it to the clearing role, each citing the rows it comes from. */
  ghost predicate SpellsOut(p: Policy, events: seq<Event>, credit: Event, lines: seq<JournalLine>) {
    var fee, tax := GatewayAmount(events, Fee), GatewayAmount(events, Tax);
    var fees, taxes := if fee > 0 then 1 else 0, if tax > 0 then 1 else 0;
    && |lines| == 2 + fees + taxes
    && PostsTo(lines[0], p, p.bankRole, credit.amount, "Bank receipt") && CitedBy(lines[0], credit) && |lines[0].links| == 1
    && (fee > 0 ==> PostsTo(lines[1], p, p.feeRole, fee, "Gateway fee expense") && CitesKinds(lines[1], events, {Fee}))
    && (tax > 0 ==> PostsTo(lines[1 + fees], p, p.taxRole, tax, "Input GST on gateway fee") && CitesKinds(lines[1 + fees], events, {Tax}))
    && PostsTo(lines[|lines| - 1], p, p.clearingRole, credit.amount + fee + tax, "Gateway clearing")
    && CitesKinds(lines[|lines| - 1], events, {Payment, Refund, Adjustment, EventType.Settlement})
  }

  /** A draft is made on the one bank credit of the case, and spells out its amounts. */
  lemma {:induction false} DraftExactly(p: Policy, events: seq<Event>, credit: Event)
    requires RolesHaveAccounts(p) && Draftable(p, events) && credit in events && credit.source == Bank && credit.direction == Credit
    ensures forall e | e in events && e.source == Bank && e.direction == Credit :: e == credit
    ensures SpellsOut(p, events, credit, DraftLines(p, events))
  {
    hide Select, Total, PostsTo, CitesKinds, CitedBy, RoleLine, BankCredits, OfThese, GatewayAmount, SpellsOut, FirstAccount;
    OnlyCredit(p, events, credit);
    var fee, tax := GatewayAmount(events, Fee), GatewayAmount(events, Tax);
    AmountsOfKind(events, Fee);
    AmountsOfKind(events, Tax);
    ReceiptLine(p, credit);
    LineOfRole(p, p.feeRole, fee, "Gateway fee expense", events, {Fee});
    LineOfRole(p, p.taxRole, tax, "Input GST on gateway fee", events, {Tax});
    LineOfRole(p, p.clearingRole, credit.amount + fee + tax, "Gateway clearing", events, CLEARED);
    DraftParts(p, events);
    hide DraftLines;
    Assembled(p, events, credit, RoleLine(p, p.bankRole, credit.amount, "Bank receipt", [credit]),
              RoleLine(p, p.feeRole, fee, "Gateway fee expense", OfThese(events, {Fee})),
              RoleLine(p, p.taxRole, tax, "Input GST on gateway fee", OfThese(events, {Tax})),
              RoleLine(p, p.clearingRole, credit.amount + fee + tax, "Gateway clearing", OfThese(events, CLEARED)), DraftLines(p, events));
  }

  lemma {:induction false} OnlyCredit(p: Policy, events: seq<Event>, credit: Event)
    requires RolesHaveAccounts(p) && Draftable(p, events) && credit in events && credit.source == Bank && credit.direction == Credit
    ensures BankCredits(events) == [credit]
    ensures forall e | e in events && e.source == Bank && e.direction == Credit :: e == credit
  {
    TheCredit(events);
    hide BankCredits, OfThese, Total;
  }

  lemma DraftParts(p: Policy, events: seq<Event>)
    requires RolesHaveAccounts(p) && |BankCredits(events)| == 1
    ensures var fees, taxes, credits := OfThese(events, {Fee}), OfThese(events, {Tax}), BankCredits(events);
      DraftLines(p, events)
      == [RoleLine(p, p.bankRole, credits[0].amount, "Bank receipt", credits)]
         + (if Total(fees) == 0 then [] else [RoleLine(p, p.feeRole, Total(fees), "Gateway fee expense", fees)])
         + (if Total(taxes) == 0 then [] else [RoleLine(p, p.taxRole, Total(taxes), "Input GST on gateway fee", taxes)])
         + [RoleLine(p, p.clearingRole, credits[0].amount + Total(fees) + Total(taxes), "Gateway clearing", OfThese(events, CLEARED))]
  {
    hide RoleLine, Total, OfThese, BankCredits;
  }

  lemma Assembled(p: Policy, events: seq<Event>, credit: Event, receipt: JournalLine, feeLine: JournalLine, taxLine: JournalLine,
                  clearing: JournalLine, lines: seq<JournalLine>)
    requires var fee, tax := GatewayAmount(events, Fee), GatewayAmount(events, Tax);
      && lines == [receipt] + (if fee == 0 then [] else [feeLine]) + (if tax == 0 then [] else [taxLine]) + [clearing]
      && PostsTo(receipt, p, p.bankRole, credit.amount, "Bank receipt") && CitedBy(receipt, credit) && |receipt.links| == 1
      && PostsTo(feeLine, p, p.feeRole, fee, "Gateway fee expense") && CitesKinds(feeLine, events, {Fee})
      && PostsTo(taxLine, p, p.taxRole, tax, "Input GST on gateway fee") && CitesKinds(taxLine, events, {Tax})
      && PostsTo(clearing, p, p.clearingRole, credit.amount + fee + tax, "Gateway clearing") && CitesKinds(clearing, events, CLEARED)
    ensures SpellsOut(p, events, credit, lines)
  {
    hide PostsTo, CitesKinds, CitedBy, GatewayAmount;
    assert CLEARED == {Payment, Refund, Adjustment, EventType.Settlement};
    assert lines[|lines| - 1] == clearing;
  }

  lemma ReceiptLine(p: Policy, credit: Event)
    requires p.bankRole.accounts != {}
    ensures var line := RoleLine(p, p.bankRole, credit.amount, "Bank receipt", [credit]);
      PostsTo(line, p, p.bankRole, credit.amount, "Bank receipt") && CitedBy(line, credit) && |line.links| == 1
  {
    var line := RoleLine(p, p.bankRole, credit.amount, "Bank receipt", [credit]);
    SourcesCite(line, [credit]);
  }
}
