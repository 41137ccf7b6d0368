/** The read-only view of one batch that every rule looks at, and the indexes behind it. */
module Context {
  import opened Events
  import opened TextOrder
  import opened Selection
  import opened Grouping

  /** One run's events, in event-id order, under one policy. */
  datatype Batch = Batch(runId: string, scope: Scope, events: seq<Event>, policy: Policy)

  datatype Refusal = NoEvents | MixedScope | CurrencyMismatch

  function BatchOf(events: seq<Event>, policy: Policy): Result<Batch, Refusal> {
    if events == [] then Err(NoEvents)
    else if |set e | e in events :: e.runId| != 1 || |set e | e in events :: e.entity| != 1 then Err(MixedScope)
    else if (set e | e in events :: e.currency) != {policy.currency} then Err(CurrencyMismatch)
    else Ok(Batch(events[0].runId, Scope(events[0].entity, policy.currency), ById(events), policy))
  }

  ghost predicate WellFormed(b: Batch) {
    && Ordered(b.events)
    && b.scope.currency == b.policy.currency
    && forall e | e in b.events :: InScope(e, b.scope)
  }

  lemma {:induction false} SingletonMembers(s: set<string>, x: string, y: string)
    requires |s| == 1 && x in s && y in s
    ensures x == y
  {
    assert |s - {x}| == 0;
    assert y !in s - {x};
  }

  /** A batch that is not refused is well formed: every event shares its run, entity and currency. */
  lemma {:induction false} AcceptedBatchIsWellFormed(events: seq<Event>, policy: Policy)
    requires UniqueIds(events) && BatchOf(events, policy).Ok?
    ensures WellFormed(BatchOf(events, policy).value)
    ensures forall e | e in events :: e.runId == BatchOf(events, policy).value.runId
  {
    ByIdOrdered(events);
    ByIdMembers(events);
    hide Ordered, ById;
    var entities, runs := set e | e in events :: e.entity, set e | e in events :: e.runId;
    var currencies := set e | e in events :: e.currency;
    forall e | e in events
      ensures InScope(e, BatchOf(events, policy).value.scope) && e.runId == events[0].runId
    {
      SingletonMembers(entities, e.entity, events[0].entity);
      SingletonMembers(runs, e.runId, events[0].runId);
      assert e.currency in currencies;
    }
  }

  // ---- indexes ------------------------------------------------------------------------------

  datatype Indexes = Indexes(
    bySettlement: map<string, seq<Event>>,
    byUtr: map<string, seq<Event>>,
    byExternal: map<string, seq<Event>>,
    byAmount: map<int, seq<Event>>,
    byDate: map<int, seq<Event>>
  )

  function Lookup<K(==)>(m: map<K, seq<Event>>, key: K): seq<Event> {
    if key in m then m[key] else []
  }

  function DateOf(e: Event): int {
    if e.valueDate.Some? then e.valueDate.value else e.day
  }

  function OfAmount(s: seq<Event>, amount: int): seq<Event> {
    if s == [] then [] else OfAmount(s[..|s| - 1], amount) + (if s[|s| - 1].amount == amount then [s[|s| - 1]] else [])
  }

  function OnDate(s: seq<Event>, day: int): seq<Event> {
    if s == [] then [] else OnDate(s[..|s| - 1], day) + (if DateOf(s[|s| - 1]) == day then [s[|s| - 1]] else [])
  }

  /** `mapping[key].append(event)` on a `defaultdict(list)`, skipped for an absent key. */
  function Append(m: map<string, seq<Event>>, key: string, e: Event): map<string, seq<Event>> {
    if key == "" then m else m[key := Lookup(m, key) + [e]]
  }

  /** Every lookup answers with the filter it stands in for. */
  ghost predicate Faithful(ix: Indexes, s: seq<Event>) {
    BySettlement(ix.bySettlement, s) && ByUtr(ix.byUtr, s) && ByExternal(ix.byExternal, s) && ByAmount(ix.byAmount, s) && ByDay(ix.byDate, s)
  }

  ghost predicate BySettlement(m: map<string, seq<Event>>, s: seq<Event>) {
    forall k :: Lookup(m, k) == Select(s, HasSettlement(k))
  }

  ghost predicate ByUtr(m: map<string, seq<Event>>, s: seq<Event>) {
    forall k :: Lookup(m, k) == Select(s, HasUtr(k))
  }

  ghost predicate ByExternal(m: map<string, seq<Event>>, s: seq<Event>) {
    forall k :: Lookup(m, k) == Select(s, HasExternal(k))
  }

  ghost predicate ByAmount(m: map<int, seq<Event>>, s: seq<Event>) {
    forall k :: Lookup(m, k) == OfAmount(s, k)
  }

  ghost predicate ByDay(m: map<int, seq<Event>>, s: seq<Event>) {
    forall k :: Lookup(m, k) == OnDate(s, k)
  }

  /** `mapping[key].append(event)` for a key that is never absent. */
  function Put(m: map<int, seq<Event>>, key: int, e: Event): map<int, seq<Event>> {
    m[key := Lookup(m, key) + [e]]
  }

  function Indexed(ix: Indexes, e: Event): Indexes {
    Indexes(
      Append(ix.bySettlement, e.settlementRef, e),
      Append(ix.byUtr, e.utr, e),
      Append(ix.byExternal, e.externalRef, e),
      Put(ix.byAmount, e.amount, e),
      Put(ix.byDate, DateOf(e), e))
  }

  method BuildIndexes(events: seq<Event>) returns (ix: Indexes)
    ensures Faithful(ix, ById(events))
  {
    var ordered := ById(events);
    ix := Indexes(map[], map[], map[], map[], map[]);
    for i := 0 to |ordered|
      invariant Faithful(ix, ordered[..i])
    {
      AppendIsFaithful(ix, ordered, i);
      ix := Indexed(ix, ordered[i]);
    }
    assert ordered[..|ordered|] == ordered;
  }

  lemma {:induction false} SelectSnoc(s: seq<Event>, i: nat, c: Criterion)
    requires i < |s|
    ensures Select(s[..i + 1], c) == Select(s[..i], c) + (if Meets(s[i], c) then [s[i]] else [])
  {
    assert s[..i + 1] == s[..i] + [s[i]];
    SelectConcat(s[..i], [s[i]], c);
  }

  lemma {:induction false} AppendOne(m: map<string, seq<Event>>, s: seq<Event>, i: nat, key: string, k: string, c: Criterion)
    requires i < |s| && Lookup(m, k) == Select(s[..i], c) && (Meets(s[i], c) <==> key != "" && key == k)
    ensures Lookup(Append(m, key, s[i]), k) == Select(s[..i + 1], c)
  {
    hide Select, Meets;
    SelectSnoc(s, i, c);
  }

  lemma {:induction false} AppendIsFaithful(ix: Indexes, s: seq<Event>, i: nat)
    requires i < |s| && Faithful(ix, s[..i])
    ensures Faithful(Indexed(ix, s[i]), s[..i + 1])
  {
    hide BySettlement, ByUtr, ByExternal, ByAmount, ByDay, Append, Put;
    AppendBySettlement(ix.bySettlement, s, i);
    AppendByUtr(ix.byUtr, s, i);
    AppendByExternal(ix.byExternal, s, i);
    PutByAmount(ix.byAmount, s, i);
    PutByDay(ix.byDate, s, i);
  }

  lemma {:induction false} AppendBySettlement(m: map<string, seq<Event>>, s: seq<Event>, i: nat)
    requires i < |s| && BySettlement(m, s[..i])
    ensures BySettlement(Append(m, s[i].settlementRef, s[i]), s[..i + 1])
  {
    hide Select, Lookup, Append;
    forall k ensures Lookup(Append(m, s[i].settlementRef, s[i]), k) == Select(s[..i + 1], HasSettlement(k)) {
      AppendOne(m, s, i, s[i].settlementRef, k, HasSettlement(k));
    }
  }

  lemma {:induction false} AppendByUtr(m: map<string, seq<Event>>, s: seq<Event>, i: nat)
    requires i < |s| && ByUtr(m, s[..i])
    ensures ByUtr(Append(m, s[i].utr, s[i]), s[..i + 1])
  {
    hide Select, Lookup, Append;
    forall k ensures Lookup(Append(m, s[i].utr, s[i]), k) == Select(s[..i + 1], HasUtr(k)) {
      AppendOne(m, s, i, s[i].utr, k, HasUtr(k));
    }
  }

  lemma {:induction false} AppendByExternal(m: map<string, seq<Event>>, s: seq<Event>, i: nat)
    requires i < |s| && ByExternal(m, s[..i])
    ensures ByExternal(Append(m, s[i].externalRef, s[i]), s[..i + 1])
  {
    hide Select, Lookup, Append;
    forall k ensures Lookup(Append(m, s[i].externalRef, s[i]), k) == Select(s[..i + 1], HasExternal(k)) {
      AppendOne(m, s, i, s[i].externalRef, k, HasExternal(k));
    }
  }

  lemma {:induction false} PutByAmount(m: map<int, seq<Event>>, s: seq<Event>, i: nat)
    requires i < |s| && ByAmount(m, s[..i])
    ensures ByAmount(Put(m, s[i].amount, s[i]), s[..i + 1])
  {
    assert s[..i + 1][..i] == s[..i];
    forall k ensures Lookup(Put(m, s[i].amount, s[i]), k) == OfAmount(s[..i + 1], k) {
      assert Lookup(m, k) == OfAmount(s[..i], k);
    }
  }

  lemma {:induction false} PutByDay(m: map<int, seq<Event>>, s: seq<Event>, i: nat)
    requires i < |s| && ByDay(m, s[..i])
    ensures ByDay(Put(m, DateOf(s[i]), s[i]), s[..i + 1])
  {
    hide DateOf;
    assert s[..i + 1][..i] == s[..i];
    forall k ensures Lookup(Put(m, DateOf(s[i]), s[i]), k) == OnDate(s[..i + 1], k) {
      assert Lookup(m, k) == OnDate(s[..i], k);
    }
  }

  method Build(events: seq<Event>, policy: Policy) returns (r: Result<(Batch, Indexes), Refusal>)
    ensures r.Ok? <==> BatchOf(events, policy).Ok?
    ensures r.Ok? ==> r.value.0 == BatchOf(events, policy).value
    ensures r.Ok? && UniqueIds(events) ==> Faithful(r.value.1, r.value.0.events)
    ensures r.Err? ==> r.error == BatchOf(events, policy).error
  {
    var batch := BatchOf(events, policy);
    if batch.Err? {
      return Err(batch.error);
    }
    var ordered := ById(events);
    var ix := BuildIndexes(ordered);
    r := Ok((batch.value, ix));
    if UniqueIds(events) {
      ByIdOrdered(events);
      SortingOrderedIsIdentity(ordered);
    }
  }

  // ---- what the rules ask for ---------------------------------------------------------------

  function SettlementKeys(es: seq<Event>): seq<string> {
    if es == [] then []
    else (if es[0].settlementRef != "" then [es[0].settlementRef] else []) + SettlementKeys(es[1..])
  }

  lemma {:induction false} SettlementKeysMembers(es: seq<Event>)
    ensures forall k :: k in SettlementKeys(es) <==> k != "" && exists e :: e in es && e.settlementRef == k
  {
    if es != [] {
      SettlementKeysMembers(es[1..]);
      assert es == [es[0]] + es[1..];
    }
  }

  function SettlementReferences(b: Batch): seq<string> {
    SortedDistinct(SettlementKeys(Select(b.events, FromSource(Gateway))))
  }

  function GatewaySettlement(b: Batch, reference: string): seq<Event> {
    Select(b.events, GatewayIn(b.scope, reference))
  }

  function ErpLines(b: Batch, reference: string): seq<Event> {
    Select(b.events, ErpFor(b.scope, reference))
  }

  function UtrRows(b: Batch, utr: string, consumed: set<string>): seq<Event> {
    Select(b.events, CarriesUtr(b.scope, utr, consumed))
  }

  function Receipts(b: Batch, day: int, consumed: set<string>): seq<Event> {
    Select(b.events, ReceiptBetween(b.scope, day + b.policy.minDays, day + b.policy.maxDays, consumed))
  }

  function JournalKeys(lines: seq<Event>): seq<string> {
    seq(|lines|, i requires 0 <= i < |lines| => JournalId(lines[i].recordId))
  }

  /** The lines split by journal, in journal-id order. */
  function Journals(lines: seq<Event>): seq<seq<Event>> {
    var ids := SortedDistinct(JournalKeys(lines));
    seq(|ids|, i requires 0 <= i < |ids| => Select(lines, InJournal(ids[i])))
  }

  method GatewayRows(b: Batch, ix: Indexes, reference: string) returns (r: seq<Event>)
    requires Faithful(ix, b.events)
    ensures r == GatewaySettlement(b, reference)
  {
    r := Select(Lookup(ix.bySettlement, reference), Eligible(b.scope, Gateway, {}));
    SelectTwice(b.events, HasSettlement(reference), Eligible(b.scope, Gateway, {}), GatewayIn(b.scope, reference));
  }

  method RowsWithUtr(b: Batch, ix: Indexes, utr: string, consumed: set<string>) returns (r: seq<Event>)
    requires Faithful(ix, b.events)
    ensures r == UtrRows(b, utr, consumed)
  {
    r := Select(Lookup(ix.byUtr, utr), Eligible(b.scope, Bank, consumed));
    SelectTwice(b.events, HasUtr(utr), Eligible(b.scope, Bank, consumed), CarriesUtr(b.scope, utr, consumed));
  }

  lemma SelectNothing()
    ensures forall c :: Select([], c) == []
  {
  }

  /** Groups lines in a dictionary of lists, remembering the order in which keys first appeared. */
  method GroupByJournal(lines: seq<Event>) returns (order: seq<string>, grouped: map<string, seq<Event>>)
    ensures SortedDistinct(order) == SortedDistinct(JournalKeys(lines))
    ensures forall k :: k in grouped <==> k in order
    ensures forall k | k in grouped :: grouped[k] == Select(lines, InJournal(k))
  {
    hide Select, SortedDistinct, JournalId;
    order, grouped := [], map[];
    assert lines[..0] == [];
    SelectNothing();
    for i := 0 to |lines|
      invariant forall k :: k in grouped <==> k in order
      invariant forall k :: k in order <==> k in JournalKeys(lines)[..i]
      invariant forall k :: Lookup(grouped, k) == Select(lines[..i], InJournal(k))
    {
      var key := JournalId(lines[i].recordId);
      ghost var before := grouped;
      forall k ensures Select(lines[..i + 1], InJournal(k))
                    == Lookup(before, k) + (if k == key then [lines[i]] else []) {
        SelectSnoc(lines, i, InJournal(k));
      }
      assert JournalKeys(lines)[..i + 1] == JournalKeys(lines)[..i] + [key];
      if key !in grouped {
        order := order + [key];
      }
      grouped := grouped[key := Lookup(grouped, key) + [lines[i]]];
    }
    assert lines[..|lines|] == lines && JournalKeys(lines)[..|lines|] == JournalKeys(lines);
    SortedDistinctAscending(order);
    SortedDistinctMembers(order);
    SortedDistinctAscending(JournalKeys(lines));
    SortedDistinctMembers(JournalKeys(lines));
    AscendingExtensional(SortedDistinct(order), SortedDistinct(JournalKeys(lines)));
    forall k | k in grouped ensures grouped[k] == Select(lines, InJournal(k)) {
      assert Lookup(grouped, k) == Select(lines[..|lines|], InJournal(k));
    }
  }

  /** The journals of ordered lines, by journal id. */
  method SortJournals(lines: seq<Event>) returns (r: seq<seq<Event>>)
    requires Ordered(lines)
    ensures r == Journals(lines)
  {
    hide Select, ById, Ordered, SortedDistinct, JournalKeys;
    var order, grouped := GroupByJournal(lines);
    var ids := SortedDistinct(order);
    SortedDistinctMembers(order);
    r := [];
    ghost var journals := Journals(lines);
    for i := 0 to |ids|
      invariant r == journals[..i]
    {
      assert ids[i] in order;
      SelectOrdered(lines, InJournal(ids[i]));
      SortingOrderedIsIdentity(grouped[ids[i]]);
      r := r + [ById(grouped[ids[i]])];
    }
  }

  method ErpJournals(b: Batch, ix: Indexes, reference: string) returns (r: seq<seq<Event>>)
    requires Ordered(b.events) && Faithful(ix, b.events)
    ensures r == Journals(ErpLines(b, reference))
  {
    var lines := Select(Lookup(ix.byExternal, reference), Eligible(b.scope, Erp, {}));
    SelectTwice(b.events, HasExternal(reference), Eligible(b.scope, Erp, {}), ErpFor(b.scope, reference));
    hide Select, Ordered, Journals, Faithful, Meets;
    SelectOrdered(b.events, ErpFor(b.scope, reference));
    r := SortJournals(lines);
  }

  // ---- bank candidates ----------------------------------------------------------------------

  function DayOf(e: Event): int {
    if e.valueDate.Some? then e.valueDate.value else 0
  }

  predicate DatedBefore(a: Event, b: Event) {
    DayOf(a) < DayOf(b) || (DayOf(a) == DayOf(b) && Less(a.eventId, b.eventId))
  }

  function InsertByDate(e: Event, s: seq<Event>): (r: seq<Event>)
    ensures multiset(r) == multiset(s) + multiset{e}
  {
    if s == [] || !DatedBefore(s[0], e) then [e] + s
    else
      assert s == [s[0]] + s[1..];
      [s[0]] + InsertByDate(e, s[1..])
  }

  /** `sorted(s, key=lambda event: (event.value_date, event.event_id))`. */
  function ByDate(s: seq<Event>): (r: seq<Event>)
    ensures multiset(r) == multiset(s)
  {
    if s == [] then []
    else
      assert s == [s[0]] + s[1..];
      InsertByDate(s[0], ByDate(s[1..]))
  }

  function BankCandidates(b: Batch, day: int, consumed: set<string>): seq<Event> {
    ByDate(Receipts(b, day, consumed))
  }

  lemma {:induction false} PermutationKeepsUniqueIds(s: seq<Event>, t: seq<Event>)
    requires multiset(s) == multiset(t) && UniqueIds(s)
    ensures UniqueIds(t)
  {
    forall i, j | 0 <= i < j < |t| ensures t[i].eventId != t[j].eventId {
      assert t[i] in multiset(s) && t[j] in multiset(s);
      var k :| 0 <= k < |s| && s[k] == t[i];
      var l :| 0 <= l < |s| && s[l] == t[j];
      CountInUnique(s, t[i]);
      TakeOut(t, i);
      assert t[j] == Without(t, i)[j - 1];
      assert t[j] in multiset(Without(t, i));
      assert k != l;
    }
  }

  lemma {:induction false} SameRows(s: seq<Event>, t: seq<Event>, e: Event)
    requires multiset(s) == multiset(t)
    ensures e in s <==> e in t
  {
    assert e in s <==> e in multiset(s);
    assert e in t <==> e in multiset(t);
  }

  /** Sorting by id forgets the original order. */
  lemma {:induction false} SortForgetsOrder(s: seq<Event>, t: seq<Event>)
    requires UniqueIds(s) && multiset(s) == multiset(t)
    ensures UniqueIds(t) && ById(t) == ById(s) && |t| == |s|
  {
    PermutationKeepsUniqueIds(s, t);
    ByIdOrdered(s);
    ByIdOrdered(t);
    ByIdMembers(s);
    ByIdMembers(t);
    hide ById, UniqueIds, Ordered;
    forall e ensures e in ById(s) <==> e in ById(t) {
      SameRows(s, t, e);
    }
    OrderedExtensional(ById(s), ById(t));
  }

  lemma SearchUsesSortedRows(s: seq<Event>, t: seq<Event>, target: int, g: GroupingPolicy)
    requires ById(s) == ById(t) && |s| == |t|
    ensures Search(s, target, g) == Search(t, target, g)
  {
    hide ById, AllGroups, AtMost, Limit;
  }

  /** The search sorts its candidates by id again, so their date order leaves no trace. */
  lemma {:induction false} DateOrderIsImmaterial(b: Batch, day: int, consumed: set<string>, target: int)
    requires Ordered(b.events)
    ensures Search(BankCandidates(b, day, consumed), target, b.policy.grouping)
         == Search(Receipts(b, day, consumed), target, b.policy.grouping)
  {
    var s, t := Receipts(b, day, consumed), BankCandidates(b, day, consumed);
    SelectOrdered(b.events, ReceiptBetween(b.scope, day + b.policy.minDays, day + b.policy.maxDays, consumed));
    OrderedIsUnique(s);
    hide Search, ById, UniqueIds, Ordered, Receipts, ByDate;
    SortForgetsOrder(s, t);
    SearchUsesSortedRows(s, t, target, b.policy.grouping);
  }

  // ---- refusals -----------------------------------------------------------------------------

  lemma {:induction false} OneValue(values: set<string>, x: string)
    requires x in values
    ensures |values| == 1 <==> forall y | y in values :: y == x
  {
    if forall y | y in values :: y == x {
      assert values == {x};
    } else {
      var y :| y in values && y != x;
      assert {x, y} <= values;
      assert |values - {x, y}| == |values| - |{x, y}|;
    }
  }

  /** Why a batch is refused, first match first: it is empty, its rows are of several runs or entities, or some row is
      not in the policy's currency. Otherwise it has their run, their entity and the policy's currency, with the rows in
      id order. */
  lemma {:induction false} BatchExactly(events: seq<Event>, policy: Policy)
    ensures BatchOf(events, policy) ==
      if events == [] then Err(NoEvents)
      else if exists e :: e in events && (e.runId != events[0].runId || e.entity != events[0].entity) then Err(MixedScope)
      else if exists e :: e in events && e.currency != policy.currency then Err(CurrencyMismatch)
      else Ok(Batch(events[0].runId, Scope(events[0].entity, policy.currency), ById(events), policy))
  {
    hide ById;
    if events != [] {
      OneRun(events);
      InCurrency(events, policy.currency);
    }
  }

  lemma {:induction false} OneRun(events: seq<Event>)
    requires events != []
    ensures |set e | e in events :: e.runId| != 1 || |set e | e in events :: e.entity| != 1
      <==> exists e :: e in events && (e.runId != events[0].runId || e.entity != events[0].entity)
  {
    var runs, entities := set e | e in events :: e.runId, set e | e in events :: e.entity;
    assert events[0] in events;
    OneValue(runs, events[0].runId);
    OneValue(entities, events[0].entity);
    forall e | e in events ensures e.runId in runs && e.entity in entities {
    }
  }

  lemma {:induction false} InCurrency(events: seq<Event>, currency: string)
    requires events != []
    ensures (set e | e in events :: e.currency) != {currency} <==> exists e :: e in events && e.currency != currency
  {
    var currencies := set e | e in events :: e.currency;
    assert events[0] in events && events[0].currency in currencies;
    forall e | e in events ensures e.currency in currencies {
    }
  }
}
