/** Drafting the journal that a settlement without an ERP posting is missing. */
module Drafting {
  import opened Events
  import opened TextOrder
  import opened Selection
  import opened Ledger

  /** `sorted(codes)[0]`. */
  ghost function FirstAccount(codes: set<string>): (code: string)
    requires codes != {}
    ensures code in codes && forall other | other in codes :: !Less(other, code)
  {
    LeastExists(codes);
    var code :| code in codes && forall other | other in codes :: !Less(other, code);
    code
  }

  lemma {:induction false} LeastExists(codes: set<string>)
    requires codes != {}
    ensures exists code :: code in codes && forall other | other in codes :: !Less(other, code)
  {
    var x :| x in codes;
    var rest := codes - {x};
    assert forall other | other in codes :: other == x || other in rest;
    if rest == {} {
      Irreflexive(x);
      assert forall other | other in codes :: other == x;
      assert x in codes && forall other | other in codes :: !Less(other, x);
    } else {
      LeastExists(rest);
      var y :| y in rest && forall other | other in rest :: !Less(other, y);
      if Less(x, y) {
        forall other | other in codes ensures !Less(other, x) {
          if other == x {
            Irreflexive(x);
          } else if Less(other, x) {
            Transitive(other, x, y);
          }
        }
        assert x in codes && forall other | other in codes :: !Less(other, x);
      } else {
        assert y in codes && forall other | other in codes :: !Less(other, y);
      }
    }
  }

  method SmallestAccount(codes: set<string>) returns (code: string)
    requires codes != {}
    ensures code == FirstAccount(codes)
  {
    var left := codes;
    code :| code in left;
    left := left - {code};
    Irreflexive(code);
    while left != {}
      invariant left <= codes && code in codes
      invariant forall other | other in codes - left :: !Less(other, code)
      decreases left
    {
      var next :| next in left;
      left := left - {next};
      Irreflexive(next);
      if Less(next, code) {
        forall other | other in codes - left && Less(other, next) ensures Less(other, code) {
          Transitive(other, next, code);
        }
        code := next;
      }
    }
    Trichotomy(code, FirstAccount(codes));
  }

  function FromGateway(events: seq<Event>): seq<Event> {
    Select(events, FromSource(Gateway))
  }

  function BankCredits(events: seq<Event>): seq<Event> {
    Select(Select(events, FromSource(Bank)), OnSide(Credit))
  }

  function OfThese(events: seq<Event>, kinds: set<EventType>): seq<Event> {
    Select(FromGateway(events), OfKind(kinds))
  }

  const CLEARED: set<EventType> := {Payment, Refund, Adjustment, EventType.Settlement}

  /** Cites a row as the source of a journal line. */
  function Sources(events: seq<Event>): seq<Link> {
    EvidenceFor(events, JournalSource)
  }

  ghost function RoleLine(p: Policy, role: Role, amount: nat, narration: string, events: seq<Event>): JournalLine
    requires role.accounts != {}
  {
    JournalLine(FirstAccount(role.accounts), amount, p.currency, role.direction, narration, Sources(events))
  }

  ghost predicate RolesHaveAccounts(p: Policy) {
    p.bankRole.accounts != {} && p.clearingRole.accounts != {} && p.feeRole.accounts != {} && p.taxRole.accounts != {}
  }

  ghost function DebitLines(p: Policy, events: seq<Event>): seq<JournalLine>
    requires RolesHaveAccounts(p) && |BankCredits(events)| == 1
  {
    var fees, taxes := OfThese(events, {Fee}), OfThese(events, {Tax});
    [RoleLine(p, p.bankRole, BankCredits(events)[0].amount, "Bank receipt", BankCredits(events))]
    + (if Total(fees) == 0 then [] else [RoleLine(p, p.feeRole, Total(fees), "Gateway fee expense", fees)])
    + (if Total(taxes) == 0 then [] else [RoleLine(p, p.taxRole, Total(taxes), "Input GST on gateway fee", taxes)])
  }

  ghost function DraftTotal(events: seq<Event>): nat
    requires |BankCredits(events)| == 1
  {
    BankCredits(events)[0].amount + Total(OfThese(events, {Fee})) + Total(OfThese(events, {Tax}))
  }

  ghost function DraftLines(p: Policy, events: seq<Event>): seq<JournalLine>
    requires RolesHaveAccounts(p) && |BankCredits(events)| == 1
  {
    DebitLines(p, events) + [RoleLine(p, p.clearingRole, DraftTotal(events), "Gateway clearing", OfThese(events, CLEARED))]
  }

  /** When no constructor and no policy check on the way refuses. */
  ghost predicate Draftable(p: Policy, events: seq<Event>) {
    && |BankCredits(events)| == 1 && BankCredits(events)[0].amount > 0
    && p.bankRole.direction == Debit && p.clearingRole.direction == Credit
    && (Total(OfThese(events, {Fee})) != 0 ==> p.feeRole.direction == Debit)
    && (Total(OfThese(events, {Tax})) != 0 ==> p.taxRole.direction == Debit)
    && OfThese(events, CLEARED) != []
  }

  method Line(p: Policy, role: Role, amount: nat, direction: Direction, narration: string, events: seq<Event>)
    returns (r: Option<JournalLine>)
    requires role.accounts != {}
    ensures r == if role.direction == direction && amount != 0 && events != []
                 then Some(RoleLine(p, role, amount, narration, events)) else None
  {
    if role.direction != direction || amount == 0 || Sources(events) == [] {
      return None;
    }
    var account := SmallestAccount(role.accounts);
    r := Some(JournalLine(account, amount, p.currency, direction, narration, Sources(events)));
  }

  lemma {:induction false} NothingTotalsZero(s: seq<Event>)
    ensures Total(s) != 0 ==> s != []
  {
  }

  method MissingErpJournal(p: Policy, events: seq<Event>) returns (r: Option<seq<JournalLine>>)
    requires RolesHaveAccounts(p)
    ensures r == if Draftable(p, events) then Some(DraftLines(p, events)) else None
  {
    hide Select, Total, RoleLine, Sources;
    var gateway, bank := FromGateway(events), BankCredits(events);
    if |bank| != 1 {
      return None;
    }
    var fees, taxes := Select(gateway, OfKind({Fee})), Select(gateway, OfKind({Tax}));
    NothingTotalsZero(fees);
    NothingTotalsZero(taxes);
    var line := Line(p, p.bankRole, bank[0].amount, Debit, "Bank receipt", bank);
    if line.None? {
      return None;
    }
    var lines, debits := [line.value], bank[0].amount;
    if Total(fees) != 0 {
      line := Line(p, p.feeRole, Total(fees), Debit, "Gateway fee expense", fees);
      if line.None? {
        return None;
      }
      lines, debits := lines + [line.value], debits + Total(fees);
    }
    if Total(taxes) != 0 {
      line := Line(p, p.taxRole, Total(taxes), Debit, "Input GST on gateway fee", taxes);
      if line.None? {
        return None;
      }
      lines, debits := lines + [line.value], debits + Total(taxes);
    }
    assert lines == DebitLines(p, events) && debits == DraftTotal(events);
    line := Line(p, p.clearingRole, debits, Credit, "Gateway clearing", Select(gateway, OfKind(CLEARED)));
    if line.None? {
      return None;
    }
    r := Some(lines + [line.value]);
  }

  // ---- sums of the draft --------------------------------------------------------------------

  lemma {:induction false} SumsConcat(a: seq<JournalLine>, b: seq<JournalLine>, role: Role, side: Direction)
    ensures SideSum(a + b, side) == SideSum(a, side) + SideSum(b, side)
    ensures RoleSum(a + b, role) == RoleSum(a, role) + RoleSum(b, role)
  {
    if a == [] {
      assert a + b == b;
    } else {
      assert (a + b)[1..] == a[1..] + b;
      SumsConcat(a[1..], b, role, side);
    }
  }

  lemma OneLineSums(p: Policy, own: Role, amount: nat, narration: string, events: seq<Event>, role: Role, side: Direction)
    requires own.accounts != {}
    ensures var line := [RoleLine(p, own, amount, narration, events)];
      && SideSum(line, side) == (if own.direction == side then amount else 0)
      && RoleSum(line, role) == (if FirstAccount(own.accounts) in role.accounts && own.direction == role.direction then amount else 0)
  {
    hide FirstAccount;
  }

  /** A line that is left out when its amount is zero adds its amount all the same. */
  ghost function OptionalLine(p: Policy, own: Role, amount: nat, narration: string, events: seq<Event>): seq<JournalLine>
    requires own.accounts != {}
  {
    if amount == 0 then [] else [RoleLine(p, own, amount, narration, events)]
  }

  lemma OptionalLineSums(p: Policy, own: Role, amount: nat, narration: string, events: seq<Event>, role: Role, side: Direction)
    requires own.accounts != {}
    ensures var lines := OptionalLine(p, own, amount, narration, events);
      && SideSum(lines, side) == (if own.direction == side then amount else 0)
      && RoleSum(lines, role) == (if FirstAccount(own.accounts) in role.accounts && own.direction == role.direction then amount else 0)
  {
    hide FirstAccount, RoleLine;
    if amount != 0 {
      OneLineSums(p, own, amount, narration, events, role, side);
    }
  }

  /** Each side and each role of a draft, in terms of the four amounts. */
  lemma {:induction false} DraftSums(p: Policy, events: seq<Event>, role: Role, side: Direction)
    requires RolesHaveAccounts(p) && Draftable(p, events)
    ensures var lines := DraftLines(p, events);
      var bank, fee, tax := BankCredits(events)[0].amount, Total(OfThese(events, {Fee})), Total(OfThese(events, {Tax}));
      && SideSum(lines, side) == DraftTotal(events)
      && RoleSum(lines, role) == Share(p.bankRole, role, bank) + Share(p.feeRole, role, fee) + Share(p.taxRole, role, tax)
                                 + Share(p.clearingRole, role, DraftTotal(events))
  {
    hide FirstAccount, Select, Total, RoleLine, SideSum, RoleSum;
    var bank, fees, taxes := BankCredits(events), OfThese(events, {Fee}), OfThese(events, {Tax});
    var first := [RoleLine(p, p.bankRole, bank[0].amount, "Bank receipt", bank)];
    var second := OptionalLine(p, p.feeRole, Total(fees), "Gateway fee expense", fees);
    var third := OptionalLine(p, p.taxRole, Total(taxes), "Input GST on gateway fee", taxes);
    var last := [RoleLine(p, p.clearingRole, DraftTotal(events), "Gateway clearing", OfThese(events, CLEARED))];
    assert DraftLines(p, events) == first + second + third + last;
    SumsConcat(first + second + third, last, role, side);
    SumsConcat(first + second, third, role, side);
    SumsConcat(first, second, role, side);
    OneLineSums(p, p.bankRole, bank[0].amount, "Bank receipt", bank, role, side);
    OptionalLineSums(p, p.feeRole, Total(fees), "Gateway fee expense", fees, role, side);
    OptionalLineSums(p, p.taxRole, Total(taxes), "Input GST on gateway fee", taxes, role, side);
    OneLineSums(p, p.clearingRole, DraftTotal(events), "Gateway clearing", OfThese(events, CLEARED), role, side);
  }

  /** What a line of one role, posted to that role's first account, adds to another role. */
  ghost function Share(own: Role, role: Role, amount: nat): nat
    requires own.accounts != {}
  {
    if FirstAccount(own.accounts) in role.accounts && own.direction == role.direction then amount else 0
  }

  /** A draft is always a journal its constructors accept: two to four lines of positive amount in one
      currency, each citing evidence, whose debits and credits are equal. */
  lemma {:induction false} DraftIsAccepted(p: Policy, events: seq<Event>)
    requires RolesHaveAccounts(p) && Draftable(p, events)
    requires forall role, code | role in {p.bankRole, p.clearingRole, p.feeRole, p.taxRole} && code in role.accounts :: code != ""
    ensures JournalAccepted(DraftLines(p, events)) && |DraftLines(p, events)| <= 4
  {
    DraftSums(p, events, p.bankRole, Debit);
    DraftSums(p, events, p.bankRole, Credit);
    NothingTotalsZero(OfThese(events, {Fee}));
    NothingTotalsZero(OfThese(events, {Tax}));
    hide Select, Total, SideSum, RoleSum, FirstAccount, Share;
  }
}
