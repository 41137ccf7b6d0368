/** Three-way conservation of money across gateway, bank and ledger. */
module Money {
  import opened Events
  import opened Selection
  import opened SettlementRule
  import opened Gate
  import opened Verdicts
  import opened Proof

  /** What the gateway adapter guarantees of its rows. */
  ghost predicate GatewayKinds(gateway: seq<Event>) {
    forall e | e in gateway :: e.kind in {Payment, Refund, Fee, Tax, Adjustment, EventType.Settlement}
  }

  /** Peeling one row off a filtered sum. */
  lemma {:induction false} SumOfHead(p: Policy, s: seq<Event>, c: Criterion)
    requires s != []
    ensures Total(Select(s, c)) == (if Meets(s[0], c) then s[0].amount else 0) + Total(Select(s[1..], c))
    ensures SignedTotal(p, Select(s, c))
         == (if Meets(s[0], c) then SignedAmount(p, s[0]) else 0) + SignedTotal(p, Select(s[1..], c))
  {
    hide Meets, Select, SignedAmount;
    SelectHead(s, c);
    var rest := Select(s[1..], c);
    assert ([s[0]] + rest)[1..] == rest;
  }

  const CLEARING_KINDS: set<EventType> := {Payment, Refund, Adjustment}

  // ---- the components, kind by kind ---------------------------------------------------------

  /** What the rows of one kind on one side add up to. */
  function AmountOf(rows: seq<Event>, kind: EventType, side: Direction): nat {
    if rows == [] then 0
    else (if rows[0].kind == kind && rows[0].direction == side then rows[0].amount else 0) + AmountOf(rows[1..], kind, side)
  }

  /** What the rows of one kind add up to, on either side. */
  function KindAmount(rows: seq<Event>, kind: EventType): nat {
    AmountOf(rows, kind, Debit) + AmountOf(rows, kind, Credit)
  }

  /** What payments, refunds and adjustments come to: each total under its own sign, and adjustments under the sign
      of their side. */
  function ClearingAmount(signs: Signs, rows: seq<Event>): int {
    signs.payment * KindAmount(rows, Payment) + signs.refund * KindAmount(rows, Refund)
    + signs.adjustmentCredit * AmountOf(rows, Adjustment, Credit) + signs.adjustmentDebit * AmountOf(rows, Adjustment, Debit)
  }

  /** What all components come to. */
  function NetAmount(signs: Signs, rows: seq<Event>): int {
    ClearingAmount(signs, rows) + signs.fee * KindAmount(rows, Fee) + signs.tax * KindAmount(rows, Tax)
  }

  lemma OneMore(sign: int, amount: nat, rest: nat)
    ensures sign * (amount + rest) == amount * sign + sign * rest
    ensures sign * (0 + rest) == sign * rest
  {
  }

  /** One row's share of a kind. */
  function ShareOf(e: Event, kind: EventType): nat {
    if e.kind == kind then e.amount else 0
  }

  function SideShare(e: Event, kind: EventType, side: Direction): nat {
    if e.kind == kind && e.direction == side then e.amount else 0
  }

  /** What one row adds to the clearing amount. */
  function ClearingShare(signs: Signs, e: Event): int {
    ShareOf(e, Payment) * signs.payment + ShareOf(e, Refund) * signs.refund
    + SideShare(e, Adjustment, Credit) * signs.adjustmentCredit + SideShare(e, Adjustment, Debit) * signs.adjustmentDebit
  }

  lemma {:induction false} ClearingHead(signs: Signs, rows: seq<Event>)
    requires rows != []
    ensures ClearingAmount(signs, rows) == ClearingShare(signs, rows[0]) + ClearingAmount(signs, rows[1..])
  {
    OneMore(signs.payment, ShareOf(rows[0], Payment), KindAmount(rows[1..], Payment));
    OneMore(signs.refund, ShareOf(rows[0], Refund), KindAmount(rows[1..], Refund));
    OneMore(signs.adjustmentCredit, SideShare(rows[0], Adjustment, Credit), AmountOf(rows[1..], Adjustment, Credit));
    OneMore(signs.adjustmentDebit, SideShare(rows[0], Adjustment, Debit), AmountOf(rows[1..], Adjustment, Debit));
  }

  lemma {:induction false} NetHead(signs: Signs, rows: seq<Event>)
    requires rows != []
    ensures NetAmount(signs, rows)
         == ClearingShare(signs, rows[0]) + ShareOf(rows[0], Fee) * signs.fee + ShareOf(rows[0], Tax) * signs.tax + NetAmount(signs, rows[1..])
  {
    ClearingHead(signs, rows);
    OneMore(signs.fee, ShareOf(rows[0], Fee), KindAmount(rows[1..], Fee));
    OneMore(signs.tax, ShareOf(rows[0], Tax), KindAmount(rows[1..], Tax));
    hide ClearingAmount, ClearingShare;
  }

  lemma SignedShare(p: Policy, e: Event)
    ensures (if Meets(e, OfKind(CLEARING_KINDS)) then SignedAmount(p, e) else 0) == ClearingShare(p.signs, e)
    ensures e.kind in {Payment, Refund, Fee, Tax, Adjustment, EventType.Settlement} ==>
      (if Meets(e, NotOfKind(EventType.Settlement)) then SignedAmount(p, e) else 0)
      == ClearingShare(p.signs, e) + ShareOf(e, Fee) * p.signs.fee + ShareOf(e, Tax) * p.signs.tax
  {
  }

  lemma {:induction false} ClearingByKind(p: Policy, rows: seq<Event>)
    ensures SignedTotal(p, Select(rows, OfKind(CLEARING_KINDS))) == ClearingAmount(p.signs, rows)
  {
    if rows != [] {
      ClearingByKind(p, rows[1..]);
      SumOfHead(p, rows, OfKind(CLEARING_KINDS));
      ClearingHead(p.signs, rows);
      SignedShare(p, rows[0]);
      hide Select, SignedTotal, Total, ClearingAmount, Meets, SignedAmount, ClearingShare;
    }
  }

  lemma {:induction false} KindByRows(p: Policy, rows: seq<Event>, kind: EventType)
    ensures Total(Select(rows, OfKind({kind}))) == KindAmount(rows, kind)
  {
    if rows != [] {
      KindByRows(p, rows[1..], kind);
      SumOfHead(p, rows, OfKind({kind}));
      hide Select, SignedTotal, Total;
    }
  }

  lemma {:induction false} NetByKind(p: Policy, rows: seq<Event>)
    requires GatewayKinds(rows)
    ensures SignedTotal(p, Select(rows, NotOfKind(EventType.Settlement))) == NetAmount(p.signs, rows)
  {
    if rows != [] {
      NetByKind(p, rows[1..]);
      SumOfHead(p, rows, NotOfKind(EventType.Settlement));
      NetHead(p.signs, rows);
      SignedShare(p, rows[0]);
      hide Select, SignedTotal, Total, NetAmount, GatewayKinds, Meets, SignedAmount, ClearingShare;
    }
  }

  /** The expected net, the clearing amount and the fee and tax totals of a settlement, from its rows kind by kind. */
  lemma {:induction false} ComponentsByKind(p: Policy, f: Facts)
    requires GatewayKinds(f.gateway)
    ensures ExpectedNet(p, f) == NetAmount(p.signs, f.gateway) && ClearingExpected(p, f) == ClearingAmount(p.signs, f.gateway)
    ensures KindTotal(f, Fee) == KindAmount(f.gateway, Fee) && KindTotal(f, Tax) == KindAmount(f.gateway, Tax)
  {
    hide Select, SignedTotal, Total, NetAmount, ClearingAmount, KindAmount, GatewayKinds;
    NetByKind(p, f.gateway);
    ClearingByKind(p, f.gateway);
    KindByRows(p, f.gateway, Fee);
    KindByRows(p, f.gateway, Tax);
  }

  // ---- the ledger side ----------------------------------------------------------------------


  lemma ComponentsOf(p: Policy, e: Event)
    requires e.kind in {Payment, Refund, Fee, Tax, Adjustment, EventType.Settlement}
    requires p.signs.fee == -1 && p.signs.tax == -1
    ensures Meets(e, OfKind({Fee})) || Meets(e, OfKind({Tax})) ==> SignedAmount(p, e) + e.amount == 0
    ensures !(Meets(e, OfKind({Fee})) && Meets(e, OfKind({Tax})))
    ensures Meets(e, NotOfKind(EventType.Settlement))
       <==> Meets(e, OfKind(CLEARING_KINDS)) || Meets(e, OfKind({Fee})) || Meets(e, OfKind({Tax}))
    ensures Meets(e, OfKind(CLEARING_KINDS)) ==> !Meets(e, OfKind({Fee})) && !Meets(e, OfKind({Tax}))
  {
  }

  lemma {:induction false} NetSplitsIntoComponents(p: Policy, gateway: seq<Event>)
    requires GatewayKinds(gateway) && p.signs.fee == -1 && p.signs.tax == -1
    ensures SignedTotal(p, Select(gateway, NotOfKind(EventType.Settlement)))
         == SignedTotal(p, Select(gateway, OfKind(CLEARING_KINDS)))
            - Total(Select(gateway, OfKind({Fee}))) - Total(Select(gateway, OfKind({Tax})))
  {
    if gateway != [] {
      NetSplitsIntoComponents(p, gateway[1..]);
      ComponentsOf(p, gateway[0]);
      hide Select, SignedTotal, Total, Meets, SignedAmount;
      SumOfHead(p, gateway, NotOfKind(EventType.Settlement));
      SumOfHead(p, gateway, OfKind(CLEARING_KINDS));
      SumOfHead(p, gateway, OfKind({Fee}));
      SumOfHead(p, gateway, OfKind({Tax}));
    }
  }

  /** Does a journal line fall under one of the four account roles? */
  predicate InSomeRole(p: Policy, e: Event) {
    || Meets(e, PostedTo(p.bankRole)) || Meets(e, PostedTo(p.clearingRole))
    || Meets(e, PostedTo(p.feeRole)) || Meets(e, PostedTo(p.taxRole))
  }

  /** The lines of a journal outside the four roles. */
  function OtherLines(p: Policy, journal: seq<Event>): seq<Event> {
    if journal == [] then []
    else (if InSomeRole(p, journal[0]) then [] else [journal[0]]) + OtherLines(p, journal[1..])
  }

  lemma OtherHead(p: Policy, s: seq<Event>, side: Direction)
    requires s != []
    ensures Total(Select(OtherLines(p, s), OnSide(side)))
         == (if !InSomeRole(p, s[0]) && s[0].direction == side then s[0].amount else 0)
            + Total(Select(OtherLines(p, s[1..]), OnSide(side)))
  {
    hide InSomeRole, Select, Total;
    if !InSomeRole(p, s[0]) {
      assert OtherLines(p, s)[1..] == OtherLines(p, s[1..]);
      SumOfHead(p, OtherLines(p, s), OnSide(side));
    } else {
      assert OtherLines(p, s) == OtherLines(p, s[1..]);
    }
  }

  ghost function Count(b: bool): nat { if b then 1 else 0 }

  lemma LineFallsInOneRole(p: Policy, e: Event)
    requires p.StandardAccounts()
    ensures Meets(e, OnSide(Debit)) <==> e.direction == Debit
    ensures Meets(e, OnSide(Credit)) <==> e.direction == Credit
    ensures Count(e.direction == Debit)
         == Count(Meets(e, PostedTo(p.bankRole))) + Count(Meets(e, PostedTo(p.feeRole)))
          + Count(Meets(e, PostedTo(p.taxRole))) + Count(!InSomeRole(p, e) && e.direction == Debit)
    ensures Count(e.direction == Credit)
         == Count(Meets(e, PostedTo(p.clearingRole))) + Count(!InSomeRole(p, e) && e.direction == Credit)
  {
  }

  lemma {:induction false} SidesSplitIntoRoles(p: Policy, journal: seq<Event>)
    requires p.StandardAccounts()
    ensures Total(Select(journal, OnSide(Debit)))
         == Total(Select(journal, PostedTo(p.bankRole))) + Total(Select(journal, PostedTo(p.feeRole)))
          + Total(Select(journal, PostedTo(p.taxRole))) + Total(Select(OtherLines(p, journal), OnSide(Debit)))
    ensures Total(Select(journal, OnSide(Credit)))
         == Total(Select(journal, PostedTo(p.clearingRole))) + Total(Select(OtherLines(p, journal), OnSide(Credit)))
  {
    if journal != [] {
      SidesSplitIntoRoles(p, journal[1..]);
      LineFallsInOneRole(p, journal[0]);
      hide Select, Total, OtherLines, Meets, InSomeRole;
      SumOfHead(p, journal, OnSide(Debit));
      SumOfHead(p, journal, OnSide(Credit));
      SumOfHead(p, journal, PostedTo(p.bankRole));
      SumOfHead(p, journal, PostedTo(p.feeRole));
      SumOfHead(p, journal, PostedTo(p.taxRole));
      SumOfHead(p, journal, PostedTo(p.clearingRole));
      OtherHead(p, journal, Debit);
      OtherHead(p, journal, Credit);
    }
  }

  /** Money is conserved three ways in a proved case: the bank rows, the settlement, its signed
      components and the ledger's bank postings are one amount; the clearing credits are that amount
      plus fees and taxes; and whatever else the journal holds balances by itself. */
  lemma {:induction false} ProvedCaseConservesMoney(p: Policy, f: Facts)
    requires f.gateway != [] && GatewayKinds(f.gateway)
    requires p.ZeroTolerance() && p.StandardAccounts() && AllHold(p, f)
    ensures Total(Pick(f).rows) == Net(f.gateway) == Posted(f, p.bankRole)
    ensures Net(f.gateway) == ExpectedNet(p, f) == NetAmount(p.signs, f.gateway)
    ensures Posted(f, p.feeRole) == KindAmount(f.gateway, Fee) && Posted(f, p.taxRole) == KindAmount(f.gateway, Tax)
    ensures Posted(f, p.clearingRole) == Posted(f, p.bankRole) + Posted(f, p.feeRole) + Posted(f, p.taxRole)
    ensures Total(Select(OtherLines(p, Journal(f)), OnSide(Debit)))
         == Total(Select(OtherLines(p, Journal(f)), OnSide(Credit)))
  {
    NetSplitsIntoComponents(p, f.gateway);
    SidesSplitIntoRoles(p, Journal(f));
    AmountsThatHold(p, f);
    ComponentsByKind(p, f);
    hide Select, Total, SignedTotal, Pick, Journal, Net, OtherLines, GatewayKinds, AllHold, NetAmount, KindAmount;
  }

  lemma {:induction false} AmountsThatHold(p: Policy, f: Facts)
    requires f.gateway != [] && p.ZeroTolerance() && AllHold(p, f)
    ensures Total(Pick(f).rows) == Net(f.gateway) == ExpectedNet(p, f)
    ensures SideTotal(f, Debit) == SideTotal(f, Credit)
    ensures Posted(f, p.bankRole) == Net(f.gateway) && Posted(f, p.clearingRole) == ClearingExpected(p, f)
    ensures Posted(f, p.feeRole) == KindTotal(f, Fee) && Posted(f, p.taxRole) == KindTotal(f, Tax)
  {
    hide Total, Pick, Journal, Net, ExpectedNet, ClearingExpected, KindTotal, Posted, SideTotal,
         UtrAgrees, DatesFit, HardUnique, AllCredits;
    assert TargetMet(p, f, 0) && TargetMet(p, f, 1) && TargetMet(p, f, 2) && TargetMet(p, f, 3);
  }

  // ---- over a whole run ---------------------------------------------------------------------

  datatype Sums = Sums(net: int, bank: int, ledger: int)

  /** Settlement, bank and ledger totals of the cases that are proved. */
  ghost function ProvedSums(runId: string, p: Policy, cases: seq<Facts>, similarity: Similarity): Sums
    requires forall i | 0 <= i < |cases| :: cases[i].gateway != []
  {
    if cases == [] then Sums(0, 0, 0)
    else
      var f, rest := cases[0], ProvedSums(runId, p, cases[1..], similarity);
      if CaseLevel(runId, p, f, similarity) != Proved then rest
      else Sums(Net(f.gateway) + rest.net, Total(Pick(f).rows) + rest.bank, Posted(f, p.bankRole) + rest.ledger)
  }

  lemma {:induction false} ClearedTotalsAgree(runId: string, p: Policy, cases: seq<Facts>, similarity: Similarity)
    requires forall i | 0 <= i < |cases| :: cases[i].gateway != [] && GatewayKinds(cases[i].gateway)
    requires p.ZeroTolerance() && p.StandardAccounts() && FIFTEEN <= p.required
    ensures var s := ProvedSums(runId, p, cases, similarity); s.net == s.bank == s.ledger
  {
    hide AllHold, CaseLevel, GatewayKinds, Net, Total, Pick, Posted;
    if cases != [] {
      ClearedTotalsAgree(runId, p, cases[1..], similarity);
      var f := cases[0];
      if CaseLevel(runId, p, f, similarity) == Proved {
        ProvedNeedsAll(runId, p, f, similarity);
        ProvedCaseConservesMoney(p, f);
      }
    }
  }
}
