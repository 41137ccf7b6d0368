/** Filters, sorts and sums over event sequences: the comprehension vocabulary of the rules. */
module Selection {
  import opened Events
  import opened TextOrder

  datatype Scope = Scope(entity: string, currency: string)

  /** The filters the rules apply to events, named after where each one is used. */
  datatype Criterion =
    | HasSettlement(key: string)
    | HasUtr(key: string)
    | HasExternal(key: string)
    | Eligible(scope: Scope, source: SourceType, consumed: set<string>)
    | GatewayIn(scope: Scope, reference: string)
    | ErpFor(scope: Scope, reference: string)
    | CarriesUtr(scope: Scope, reference: string, consumed: set<string>)
    | ReceiptBetween(scope: Scope, first: int, last: int, consumed: set<string>)
    | OfKind(kinds: set<EventType>)
    | NotOfKind(kind: EventType)
    | OnSide(side: Direction)
    | PostedTo(role: Role)
    | InJournal(journalId: string)
    | FromSource(source: SourceType)
    | Unclaimed(source: SourceType, consumed: set<string>)

  predicate InScope(e: Event, scope: Scope) {
    e.entity == scope.entity && e.currency == scope.currency
  }

  predicate Meets(e: Event, c: Criterion) {
    match c
    case HasSettlement(key) => key != "" && e.settlementRef == key
    case HasUtr(key) => key != "" && e.utr == key
    case HasExternal(key) => key != "" && e.externalRef == key
    case Eligible(scope, source, consumed) =>
      e.source == source && e.eventId !in consumed && InScope(e, scope)
    case GatewayIn(scope, reference) =>
      reference != "" && e.settlementRef == reference && e.source == Gateway && InScope(e, scope)
    case ErpFor(scope, reference) =>
      reference != "" && e.externalRef == reference && e.source == Erp && InScope(e, scope)
    case CarriesUtr(scope, reference, consumed) =>
      && reference != "" && e.utr == reference && e.source == Bank
      && e.eventId !in consumed && InScope(e, scope)
    case ReceiptBetween(scope, first, last, consumed) =>
      && e.source == Bank && e.kind == BankCredit && e.direction == Credit && InScope(e, scope)
      && e.eventId !in consumed && e.valueDate.Some? && first <= e.valueDate.value <= last
    case OfKind(kinds) => e.kind in kinds
    case NotOfKind(kind) => e.kind != kind
    case OnSide(side) => e.direction == side
    case PostedTo(role) => e.account in role.accounts && e.direction == role.direction
    case InJournal(journalId) => JournalId(e.recordId) == journalId
    case FromSource(source) => e.source == source
    case Unclaimed(source, consumed) => e.source == source && e.eventId !in consumed
  }

  /** `tuple(event for event in s if ...)`: the matching events, in order. */
  function Select(s: seq<Event>, c: Criterion): seq<Event> {
    if s == [] then []
    else (if Meets(s[0], c) then [s[0]] else []) + Select(s[1..], c)
  }

  lemma {:induction false} SelectMembers(s: seq<Event>, c: Criterion)
    ensures forall e {:trigger e in Select(s, c)} :: e in Select(s, c) <==> e in s && Meets(e, c)
  {
    hide Meets;
    if s != [] {
      SelectMembers(s[1..], c);
    }
  }

  lemma SelectHead(s: seq<Event>, c: Criterion)
    requires s != []
    ensures Select(s, c) == if Meets(s[0], c) then [s[0]] + Select(s[1..], c) else Select(s[1..], c)
  {
    hide Meets;
  }

  /** Filtering twice is filtering by the conjunction. */
  lemma {:induction false} SelectTwice(s: seq<Event>, first: Criterion, second: Criterion, both: Criterion)
    requires forall e :: Meets(e, both) <==> Meets(e, first) && Meets(e, second)
    ensures Select(Select(s, first), second) == Select(s, both)
  {
    hide Meets;
    if s != [] {
      SelectTwice(s[1..], first, second, both);
      SelectConcat(if Meets(s[0], first) then [s[0]] else [], Select(s[1..], first), second);
    }
  }

  // ---- journal ids --------------------------------------------------------------------------

  /** `record_id.rsplit(":", 1)[0]`: everything before the last colon, or the whole text. */
  function JournalId(recordId: string): string {
    if ':' in recordId then BeforeLastColon(recordId) else recordId
  }

  function BeforeLastColon(s: string): string
    requires ':' in s
  {
    if s[|s| - 1] == ':' then s[..|s| - 1] else BeforeLastColon(s[..|s| - 1])
  }

  /** Journal ids survive the `journal:line` encoding even when they contain colons. */
  lemma {:induction false} JournalIdRoundTrip(journalId: string, line: string)
    requires ':' !in line
    ensures JournalId(journalId + ":" + line) == journalId
  {
    var s := journalId + ":" + line;
    assert s[|journalId|] == ':';
    if line == "" {
      assert s[..|s| - 1] == journalId;
    } else {
      var shorter := line[..|line| - 1];
      assert s[|s| - 1] == line[|line| - 1];
      assert s[..|s| - 1] == journalId + ":" + shorter;
      JournalIdRoundTrip(journalId, shorter);
      assert (journalId + ":" + shorter)[|journalId|] == ':';
    }
  }

  // ---- order by event id --------------------------------------------------------------------

  /** Strictly ascending event ids; in particular no id repeats. */
  ghost predicate Ordered(s: seq<Event>) {
    forall i, j | 0 <= i < j < |s| :: Less(s[i].eventId, s[j].eventId)
  }

  ghost predicate UniqueIds(s: seq<Event>) {
    forall i, j | 0 <= i < j < |s| :: s[i].eventId != s[j].eventId
  }

  function InsertById(e: Event, s: seq<Event>): seq<Event> {
    if s == [] || !Less(s[0].eventId, e.eventId) then [e] + s
    else [s[0]] + InsertById(e, s[1..])
  }

  /** `sorted(s, key=lambda event: event.event_id)`. */
  function ById(s: seq<Event>): seq<Event> {
    if s == [] then [] else InsertById(s[0], ById(s[1..]))
  }

  lemma {:induction false} InsertByIdMembers(e: Event, s: seq<Event>)
    ensures |InsertById(e, s)| == |s| + 1
    ensures forall x {:trigger x in InsertById(e, s)} :: x in InsertById(e, s) <==> x == e || x in s
  {
    if s != [] {
      InsertByIdMembers(e, s[1..]);
    }
  }

  lemma {:induction false} ByIdMembers(s: seq<Event>)
    ensures |ById(s)| == |s|
    ensures forall x {:trigger x in ById(s)} :: x in ById(s) <==> x in s
  {
    if s != [] {
      ByIdMembers(s[1..]);
      InsertByIdMembers(s[0], ById(s[1..]));
    }
  }

  lemma {:induction false} InsertByIdOrdered(e: Event, s: seq<Event>)
    requires Ordered(s) && forall x | x in s :: x.eventId != e.eventId
    ensures Ordered(InsertById(e, s))
  {
    if s == [] {
    } else if !Less(s[0].eventId, e.eventId) {
      Trichotomy(s[0].eventId, e.eventId);
      forall j | 0 < j < |s| ensures Less(e.eventId, s[j].eventId) {
        Transitive(e.eventId, s[0].eventId, s[j].eventId);
      }
    } else {
      InsertByIdOrdered(e, s[1..]);
      InsertByIdMembers(e, s[1..]);
      var rest := InsertById(e, s[1..]);
      forall j | 0 <= j < |rest| ensures Less(s[0].eventId, rest[j].eventId) {
        assert rest[j] in rest;
      }
    }
  }

  lemma {:induction false} ByIdOrdered(s: seq<Event>)
    requires UniqueIds(s)
    ensures Ordered(ById(s))
  {
    if s != [] {
      ByIdOrdered(s[1..]);
      ByIdMembers(s[1..]);
      InsertByIdOrdered(s[0], ById(s[1..]));
    }
  }

  lemma {:induction false} OrderedIsUnique(s: seq<Event>)
    requires Ordered(s)
    ensures UniqueIds(s)
  {
    forall i, j | 0 <= i < j < |s| ensures s[i].eventId != s[j].eventId {
      Irreflexive(s[i].eventId);
    }
  }

  /** In an ordered list, the id determines the event. */
  lemma {:induction false} IdDeterminesEvent(s: seq<Event>, a: Event, b: Event)
    requires Ordered(s) && a in s && b in s && a.eventId == b.eventId
    ensures a == b
  {
    OrderedIsUnique(s);
    var i :| 0 <= i < |s| && s[i] == a;
    var j :| 0 <= j < |s| && s[j] == b;
  }

  lemma {:induction false} TailMembers(s: seq<Event>, e: Event)
    requires Ordered(s) && s != []
    ensures e in s[1..] <==> e in s && e != s[0]
  {
    Irreflexive(s[0].eventId);
  }

  /** An ordered list is determined by its set of members. */
  lemma {:induction false} OrderedExtensional(s: seq<Event>, t: seq<Event>)
    requires Ordered(s) && Ordered(t)
    requires forall e :: e in s <==> e in t
    ensures s == t
  {
    assert s != [] ==> s[0] in t;
    assert t != [] ==> t[0] in s;
    if s != [] {
      if s[0] != t[0] {
        var i :| 0 <= i < |t| && t[i] == s[0];
        var j :| 0 <= j < |s| && s[j] == t[0];
        Asymmetric(s[0].eventId, t[0].eventId);
        assert false;
      }
      forall e ensures e in s[1..] <==> e in t[1..] {
        TailMembers(s, e);
        TailMembers(t, e);
      }
      OrderedExtensional(s[1..], t[1..]);
      assert s == [s[0]] + s[1..] && t == [t[0]] + t[1..];
    }
  }

  lemma {:induction false} SelectOrdered(s: seq<Event>, c: Criterion)
    requires Ordered(s)
    ensures Ordered(Select(s, c))
  {
    hide Meets;
    if s != [] {
      SelectOrdered(s[1..], c);
      SelectMembers(s[1..], c);
      var rest := Select(s[1..], c);
      forall j | 0 <= j < |rest| ensures Less(s[0].eventId, rest[j].eventId) {
        assert rest[j] in rest;
      }
    }
  }

  lemma {:induction false} SortingOrderedIsIdentity(s: seq<Event>)
    requires Ordered(s)
    ensures ById(s) == s
  {
    OrderedIsUnique(s);
    ByIdOrdered(s);
    ByIdMembers(s);
    OrderedExtensional(ById(s), s);
  }

  lemma {:induction false} SelectConcat(s: seq<Event>, t: seq<Event>, c: Criterion)
    ensures Select(s + t, c) == Select(s, c) + Select(t, c)
  {
    hide Meets;
    if s == [] {
      assert s + t == t;
    } else {
      assert (s + t)[1..] == s[1..] + t;
      SelectConcat(s[1..], t, c);
    }
  }

  // ---- sums ---------------------------------------------------------------------------------

  function Total(s: seq<Event>): nat {
    if s == [] then 0 else s[0].amount + Total(s[1..])
  }

  function SignedAmount(policy: Policy, e: Event): int {
    e.amount * policy.Sign(e.kind, e.direction)
  }

  function SignedTotal(policy: Policy, s: seq<Event>): int {
    if s == [] then 0 else SignedAmount(policy, s[0]) + SignedTotal(policy, s[1..])
  }

  lemma {:induction false} TotalConcat(s: seq<Event>, t: seq<Event>)
    ensures Total(s + t) == Total(s) + Total(t)
  {
    if s == [] {
      assert s + t == t;
    } else {
      assert (s + t)[1..] == s[1..] + t;
      TotalConcat(s[1..], t);
    }
  }

  function Without(s: seq<Event>, i: nat): seq<Event>
    requires i < |s|
  {
    s[..i] + s[i + 1..]
  }

  lemma {:induction false} TakeOut(s: seq<Event>, i: nat)
    requires i < |s|
    ensures Total(s) == s[i].amount + Total(Without(s, i))
    ensures multiset(s) == multiset(Without(s, i)) + multiset{s[i]}
  {
    var tail := s[i + 1..];
    assert s == s[..i] + ([s[i]] + tail);
    assert ([s[i]] + tail)[1..] == tail;
    TotalConcat(s[..i], [s[i]] + tail);
    TotalConcat(s[..i], tail);
  }

  /** Sums do not depend on the order of the rows. */
  lemma {:induction false} TotalOfPermutation(s: seq<Event>, t: seq<Event>)
    requires multiset(s) == multiset(t)
    ensures Total(s) == Total(t)
  {
    if s == [] {
      assert |t| == |multiset(t)|;
    } else {
      assert s[0] in multiset(s);
      var i :| 0 <= i < |t| && t[i] == s[0];
      TakeOut(s, 0);
      TakeOut(t, i);
      assert Without(s, 0) == s[1..];
      assert multiset(Without(t, i)) == multiset(t) - multiset{t[i]};
      assert multiset(s[1..]) == multiset(s) - multiset{s[0]};
      TotalOfPermutation(s[1..], Without(t, i));
    }
  }

  lemma {:induction false} PermutationsHaveEqualTotals(s: seq<Event>, t: seq<Event>)
    requires UniqueIds(s) && UniqueIds(t)
    requires forall e :: e in s <==> e in t
    ensures multiset(s) == multiset(t) && Total(s) == Total(t)
  {
    forall e ensures multiset(s)[e] == multiset(t)[e] {
      CountInUnique(s, e);
      CountInUnique(t, e);
    }
    TotalOfPermutation(s, t);
  }

  lemma {:induction false} CountInUnique(s: seq<Event>, e: Event)
    requires UniqueIds(s)
    ensures multiset(s)[e] == if e in s then 1 else 0
  {
    if s != [] {
      CountInUnique(s[1..], e);
      assert s == [s[0]] + s[1..];
      assert s[0] !in s[1..];
    }
  }

  /** Of two ordered lists of positive amounts, a proper sub-list has the smaller total. */
  lemma {:induction false} EqualTotalsForceEquality(part: seq<Event>, whole: seq<Event>)
    requires Ordered(part) && Ordered(whole)
    requires forall e | e in part :: e in whole
    requires forall e | e in whole :: e.amount > 0
    ensures Total(part) <= Total(whole)
    ensures Total(part) == Total(whole) ==> part == whole
  {
    assert part != [] ==> part[0] in whole;
    if whole == [] {
    } else if part != [] && part[0] == whole[0] {
      forall e | e in part[1..] ensures e in whole[1..] {
        TailMembers(part, e);
        TailMembers(whole, e);
      }
      EqualTotalsForceEquality(part[1..], whole[1..]);
      assert part == [part[0]] + part[1..] && whole == [whole[0]] + whole[1..];
    } else {
      forall e | e in part ensures e in whole[1..] {
        if e == whole[0] {
          HeadPrecedes(part, whole);
        }
        TailMembers(whole, e);
      }
      EqualTotalsForceEquality(part, whole[1..]);
    }
  }

  lemma {:induction false} HeadPrecedes(part: seq<Event>, whole: seq<Event>)
    requires Ordered(part) && Ordered(whole) && part != [] && whole != []
    requires forall e | e in part :: e in whole
    requires whole[0] in part
    ensures part[0] == whole[0]
  {
    if part[0] != whole[0] {
      assert part[0] in whole;
      var i :| 0 <= i < |whole| && whole[i] == part[0];
      var j :| 0 <= j < |part| && part[j] == whole[0];
      Asymmetric(whole[0].eventId, part[0].eventId);
    }
  }
}
