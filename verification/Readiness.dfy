/** Is a batch of imported files ready to be reconciled? And does a correction leave it so? */
module Readiness {
  import opened Events
  import opened Selection
  import opened Transforms
  import opened Context
  import opened SettlementRule
  import opened Pipeline
  import opened Partition
  import opened Renaming
  import opened Ledger
  import opened Drafting
  import opened ErpImport
  import opened Rerun
  import opened CorrectionRun
  import opened ErpReimport
  import opened CorrectionImport

  datatype CrossIssue = SourceMissing(source: SourceType) | LegalEntityConflict | CurrencyConflict | DateRangeConflict

  const MAXIMUM_SPAN: nat := 45

  predicate Present(events: seq<Event>, source: SourceType) {
    exists e | e in events :: e.source == source
  }

  function IfMissing(events: seq<Event>, source: SourceType): seq<CrossIssue> {
    if Present(events, source) then [] else [SourceMissing(source)]
  }

  function IfBroken(broken: bool, issue: CrossIssue): seq<CrossIssue> {
    if broken then [issue] else []
  }

  predicate TooLong(events: seq<Event>) {
    exists x, y | x in events && y in events :: DateOf(x) - DateOf(y) > MAXIMUM_SPAN
  }

  function EntitiesOf(events: seq<Event>): set<string> {
    set e | e in events :: e.entity
  }

  function CurrenciesOf(events: seq<Event>): set<string> {
    set e | e in events :: e.currency
  }

  /** `validate_cross_source_readiness`: every issue it can raise is blocking. */
  function CrossIssues(events: seq<Event>): seq<CrossIssue> {
    IfMissing(events, Bank) + IfMissing(events, Erp) + IfMissing(events, Gateway)
    + IfBroken(|EntitiesOf(events)| > 1, LegalEntityConflict)
    + IfBroken(|CurrenciesOf(events)| > 1, CurrencyConflict)
    + IfBroken(TooLong(events), DateRangeConflict)
  }

  predicate CrossSourceReady(events: seq<Event>) {
    CrossIssues(events) == []
  }

  ghost predicate AllSources(events: seq<Event>) {
    forall source: SourceType :: Present(events, source)
  }

  ghost predicate OneEntity(events: seq<Event>) {
    forall x, y | x in events && y in events :: x.entity == y.entity && x.currency == y.currency
  }

  lemma {:induction false} AtMostOne(values: set<string>)
    ensures |values| <= 1 <==> forall x, y | x in values && y in values :: x == y
  {
    if |values| > 1 {
      var x :| x in values;
      assert |values - {x}| > 0;
      var y :| y in values - {x};
      assert x in values && y in values && x != y;
    } else if |values| == 1 {
      var x :| x in values;
      assert |values - {x}| == 0;
      forall y | y in values ensures y == x {
        assert y !in values - {x};
      }
    }
  }

  /** Ready means: all three sources, one entity, one currency, and dates within the span. */
  lemma {:induction false} ReadyExactly(events: seq<Event>)
    ensures CrossSourceReady(events) <==> AllSources(events) && OneEntity(events) && !TooLong(events)
  {
    var entities, currencies := EntitiesOf(events), CurrenciesOf(events);
    AtMostOne(entities);
    AtMostOne(currencies);
    hide Present, TooLong;
    assert AllSources(events) <==> Present(events, Bank) && Present(events, Erp) && Present(events, Gateway) by {
      if Present(events, Bank) && Present(events, Erp) && Present(events, Gateway) {
        forall source: SourceType ensures Present(events, source) {
          match source {
            case Gateway =>
            case Bank =>
            case Erp =>
          }
        }
      }
    }
    if |entities| <= 1 && |currencies| <= 1 {
      forall x, y | x in events && y in events ensures x.entity == y.entity && x.currency == y.currency {
        assert x.entity in entities && y.entity in entities && x.currency in currencies && y.currency in currencies;
      }
    }
    if OneEntity(events) {
      forall a, c | a in entities && c in entities ensures a == c {
        var x :| x in events && x.entity == a;
        var y :| y in events && y.entity == c;
      }
      forall a, c | a in currencies && c in currencies ensures a == c {
        var x :| x in events && x.currency == a;
        var y :| y in events && y.currency == c;
      }
    }
  }

  // ---- the corrected batch ------------------------------------------------------------------

  /** The posting date lies within the span of every stored row. */
  ghost predicate DayFits(events: seq<Event>, day: int) {
    forall e | e in events :: -45 <= DateOf(e) - day <= 45
  }

  lemma {:induction false} CorrectedSources(r: Renaming, events: seq<Event>, posted: seq<Event>)
    requires AllSources(events)
    ensures AllSources(RenameAll(r, events) + posted)
  {
    RenameAllMembers(r, events);
    hide RenameAll, NewId;
    forall source: SourceType ensures Present(RenameAll(r, events) + posted, source) {
      assert Present(events, source);
      var e :| e in events && e.source == source;
      assert Rename(r, e) in RenameAll(r, events) + posted;
    }
  }

  lemma {:induction false} CorrectedEntity(r: Renaming, events: seq<Event>, posted: seq<Event>, scope: Scope)
    requires (forall e | e in events :: InScope(e, scope)) && forall x | x in posted :: InScope(x, scope)
    ensures OneEntity(RenameAll(r, events) + posted)
  {
    RenameAllMembers(r, events);
    hide RenameAll, NewId;
  }

  lemma {:induction false} CorrectedSpan(r: Renaming, events: seq<Event>, posted: seq<Event>, day: int)
    requires !TooLong(events) && posted != [] && forall x | x in posted :: DateOf(x) == day
    ensures !TooLong(RenameAll(r, events) + posted) <==> DayFits(events, day)
  {
    RenameAllMembers(r, events);
    var all := RenameAll(r, events) + posted;
    hide RenameAll, NewId;
    assert posted[0] in all && DateOf(posted[0]) == day by { assert posted[0] in posted; }
    if !TooLong(all) {
      forall e | e in events ensures -45 <= DateOf(e) - day <= 45 {
        assert Rename(r, e) in all && DateOf(Rename(r, e)) == DateOf(e);
      }
    }
    if DayFits(events, day) {
      forall x, y | x in all && y in all ensures DateOf(x) - DateOf(y) <= MAXIMUM_SPAN {
        DateInAll(r, events, posted, day, x);
        DateInAll(r, events, posted, day, y);
      }
    }
  }

  /** Every date of the corrected batch is an old one or the posting date. */
  lemma {:induction false} DateInAll(r: Renaming, events: seq<Event>, posted: seq<Event>, day: int, x: Event)
    requires x in RenameAll(r, events) + posted && forall p | p in posted :: DateOf(p) == day
    ensures DateOf(x) == day || exists e :: e in events && DateOf(e) == DateOf(x)
  {
    RenameAllMembers(r, events);
    hide RenameAll, NewId;
    if x !in posted {
      var e :| e in events && x == Rename(r, e);
      assert DateOf(e) == DateOf(x);
    }
  }

  lemma {:induction false} PostedDay(lines: seq<JournalLine>, slip: Slip, lineages: seq<Lineage>)
    requires |lineages| == |lines|
    ensures forall x | x in Postings(lines, slip, lineages) :: DateOf(x) == slip.day
  {
    hide Strip, EventId, RecordId;
  }

  lemma {:induction false} DraftIsInScope(events: seq<Event>, policy: Policy, i: nat, slip: Slip, lineages: seq<Lineage>)
    requires Correctable(events, policy, i, slip) && |lineages| == |DraftOf(events, policy, i, slip)|
    ensures var scope, posted := BatchOf(events, policy).value.scope, Postings(DraftOf(events, policy, i, slip), slip, lineages);
      posted != [] && (forall x | x in posted :: InScope(x, scope)) && forall e | e in events :: InScope(e, scope)
  {
    var b := BatchOf(events, policy).value;
    var members := Members(AllCases(b)[i]);
    BatchPolicy(events, policy);
    hide BatchOf, Draftable, DraftLines, Postings, Members, NamedAccounts, AllCases, Issued, FreshJournal, UniqueIds,
         SettlementReferences, Known;
    StoredInScope(events, policy);
    DraftIsPosted(policy, members, slip, lineages);
    DraftIsPostedUnder(b, members, slip, lineages);
  }

  lemma {:induction false} StoredInScope(events: seq<Event>, policy: Policy)
    requires UniqueIds(events) && BatchOf(events, policy).Ok?
    ensures forall e | e in events :: InScope(e, BatchOf(events, policy).value.scope)
  {
    AcceptedBatchIsWellFormed(events, policy);
    ByIdMembers(events);
    assert BatchOf(events, policy).value.events == ById(events);
    hide ById, Ordered, UniqueIds;
  }

  /** When the run was ready, importing the corrected file leaves it ready if and only if the posting date is
      within the span of every stored row. */
  lemma {:induction false} CorrectedImportIsReady(others: seq<Event>, erp: seq<FileRow>, runId: string, policy: Policy, i: nat, slip: Slip,
                                                  lineages: map<string, Lineage>, file: seq<FileRow>)
    requires CorrectableFile(others, erp, runId, policy, i, slip)
    requires Extends(file, erp, Appended(others, erp, runId, policy, i, slip))
    requires CrossSourceReady(StoredEvents(others, erp, runId, slip.entity))
    ensures IsValid(file, slip.runId, slip.entity) && |ReadEvents(erp, runId, slip.entity)| <= |file|
    ensures CrossSourceReady(Imported(others, erp, runId, slip, lineages, file))
      <==> DayFits(StoredEvents(others, erp, runId, slip.entity), slip.day)
  {
    var events := StoredEvents(others, erp, runId, slip.entity);
    CorrectableParts(events, policy, i, slip);
    hide StoredEvents, IsValid, ReadEvents, Correctable, DraftOf, BatchOf, Issued, FreshJournal, UniqueIds, Postable, Extends, RowsFor,
         Imported, Postings, LineagesOf, CrossSourceReady, Reimport, DayFits, AllSources, OneEntity, TooLong, Again, NumberedFile;
    var lines := DraftOf(events, policy, i, slip);
    ImportedIsCorrected(others, erp, runId, lines, slip, lineages, file);
    LineagesLength(file[|erp|..]);
    var rows := LineagesOf(file[|erp|..]);
    PostedDay(lines, slip, rows);
    DraftIsInScope(events, policy, i, slip, rows);
    ReadyAfterPosting(Reimport(runId, events, slip.runId, lineages + FileLineages(ReadEvents(erp, runId, slip.entity), file)), events,
                      Postings(lines, slip, rows), slip.day, BatchOf(events, policy).value.scope);
  }

  lemma {:induction false} ReadyAfterPosting(r: Renaming, events: seq<Event>, posted: seq<Event>, day: int, scope: Scope)
    requires CrossSourceReady(events) && posted != []
    requires (forall x | x in posted :: InScope(x, scope) && DateOf(x) == day) && forall e | e in events :: InScope(e, scope)
    ensures CrossSourceReady(RenameAll(r, events) + posted) <==> DayFits(events, day)
  {
    hide CrossSourceReady, DayFits, AllSources, OneEntity, TooLong, RenameAll;
    ReadyExactly(events);
    CorrectedSources(r, events, posted);
    CorrectedEntity(r, events, posted, scope);
    CorrectedSpan(r, events, posted, day);
    ReadyExactly(RenameAll(r, events) + posted);
  }

  // ---- the posting date of a draft ----------------------------------------------------------

  /** The value date of the case's first dated bank row, or else today. */
  function PostingDay(events: seq<Event>, today: int): int {
    if events == [] then today
    else if events[0].source == Bank && events[0].valueDate.Some? then events[0].valueDate.value
    else PostingDay(events[1..], today)
  }

  lemma {:induction false} PostingDayIsADate(events: seq<Event>, today: int)
    requires exists e :: e in events && e.source == Bank && e.valueDate.Some?
    ensures exists e :: e in events && DateOf(e) == PostingDay(events, today)
  {
    if events[0].source == Bank && events[0].valueDate.Some? {
      assert events[0] in events;
    } else {
      var e :| e in events && e.source == Bank && e.valueDate.Some?;
      assert e in events[1..];
      PostingDayIsADate(events[1..], today);
    }
  }

  lemma {:induction false} CreditIsBankRow(members: seq<Event>)
    requires BankCredits(members) != []
    ensures exists e :: e in members && e.source == Bank
  {
    SelectMembers(members, FromSource(Bank));
    SelectMembers(Select(members, FromSource(Bank)), OnSide(Credit));
    var e := BankCredits(members)[0];
    assert e in BankCredits(members);
    hide BankCredits, Select;
    assert e in members;
  }

  lemma {:induction false} CaseRowsAreStored(events: seq<Event>, policy: Policy, i: nat)
    requires UniqueIds(events) && BatchOf(events, policy).Ok?
    requires var b := BatchOf(events, policy).value; Known(b, SettlementReferences(b)) && i < |SettlementReferences(b)|
    ensures forall e | e in Members(AllCases(BatchOf(events, policy).value)[i]) :: e in events
  {
    var b := BatchOf(events, policy).value;
    AcceptedBatchIsWellFormed(events, policy);
    ByIdMembers(events);
    assert b.events == ById(events);
    hide BatchOf, Members, Cases, UniqueIds, ById, Ordered, SettlementReferences, Pick, Flatten;
    CaseRows(b, SettlementReferences(b), i);
  }

  lemma DraftedFrom(events: seq<Event>, policy: Policy, i: nat, slip: Slip)
    requires Correctable(events, policy, i, slip)
    ensures UniqueIds(events) && BatchOf(events, policy).Ok?
    ensures var b := BatchOf(events, policy).value;
      && Known(b, SettlementReferences(b)) && i < |SettlementReferences(b)| && BankCredits(Members(AllCases(b)[i])) != []
  {
    hide BatchOf, UniqueIds, Cases, SettlementReferences, Members, BankCredits, Known, OfThese, Total;
  }

  /** A draft carries the date of a bank row of its case, so its import is always ready when the stored run was
      and its bank rows are dated. */
  lemma {:induction false} DraftedDayFits(events: seq<Event>, policy: Policy, i: nat, slip: Slip, today: int)
    requires Correctable(events, policy, i, slip) && CrossSourceReady(events)
    requires forall e | e in events && e.source == Bank :: e.valueDate.Some?
    requires slip.day == PostingDay(Members(AllCases(BatchOf(events, policy).value)[i]), today)
    ensures DayFits(events, slip.day)
  {
    hide BatchOf, Members, Cases, Correctable, CrossSourceReady, Known, SettlementReferences, UniqueIds, BankCredits;
    DraftedFrom(events, policy, i, slip);
    var members := Members(AllCases(BatchOf(events, policy).value)[i]);
    CaseRowsAreStored(events, policy, i);
    CreditIsBankRow(members);
    PostingDayIsADate(members, today);
    ReadyExactly(events);
    var e :| e in members && DateOf(e) == slip.day;
    assert e in events;
  }

  // ---- each issue ---------------------------------------------------------------------------

  /** When an issue is raised. */
  ghost predicate Raises(events: seq<Event>, issue: CrossIssue) {
    match issue
    case SourceMissing(source) => forall e | e in events :: e.source != source
    case LegalEntityConflict => exists x, y :: x in events && y in events && x.entity != y.entity
    case CurrencyConflict => exists x, y :: x in events && y in events && x.currency != y.currency
    case DateRangeConflict => exists x, y :: x in events && y in events && DateOf(x) - DateOf(y) > 45
  }

  lemma {:induction false} Differing(events: seq<Event>)
    ensures |EntitiesOf(events)| > 1 <==> exists x, y :: x in events && y in events && x.entity != y.entity
    ensures |CurrenciesOf(events)| > 1 <==> exists x, y :: x in events && y in events && x.currency != y.currency
  {
    var entities, currencies := EntitiesOf(events), CurrenciesOf(events);
    AtMostOne(entities);
    AtMostOne(currencies);
    if x, y :| x in events && y in events && x.entity != y.entity {
      assert x.entity in entities && y.entity in entities;
    }
    if x, y :| x in events && y in events && x.currency != y.currency {
      assert x.currency in currencies && y.currency in currencies;
    }
  }

  lemma AbsentExactly(events: seq<Event>)
    ensures forall source: SourceType :: !Present(events, source) <==> forall e | e in events :: e.source != source
  {
  }

  lemma SpanExactly(events: seq<Event>)
    ensures TooLong(events) <==> exists x, y :: x in events && y in events && DateOf(x) - DateOf(y) > 45
  {
    hide DateOf;
  }

  /** Each cross-source issue is raised exactly when the rows call for it. */
  lemma {:induction false} IssuesExactly(events: seq<Event>, issue: CrossIssue)
    ensures issue in CrossIssues(events) <==> Raises(events, issue)
  {
    hide DateOf, EntitiesOf, CurrenciesOf, TooLong, Present, IfMissing, IfBroken;
    Differing(events);
    AbsentExactly(events);
    SpanExactly(events);
    OneIssueEach(events, issue);
  }

  lemma OneIssueEach(events: seq<Event>, issue: CrossIssue)
    ensures issue in CrossIssues(events) <==> match issue
      case SourceMissing(source) => !Present(events, source)
      case LegalEntityConflict => |EntitiesOf(events)| > 1
      case CurrencyConflict => |CurrenciesOf(events)| > 1
      case DateRangeConflict => TooLong(events)
  {
    hide EntitiesOf, CurrenciesOf, TooLong, Present, IfMissing, IfBroken;
    MissingOnly(events, Bank, issue);
    MissingOnly(events, Erp, issue);
    MissingOnly(events, Gateway, issue);
    BrokenOnly(|EntitiesOf(events)| > 1, LegalEntityConflict, issue);
    BrokenOnly(|CurrenciesOf(events)| > 1, CurrencyConflict, issue);
    BrokenOnly(TooLong(events), DateRangeConflict, issue);
    if issue.SourceMissing? {
      match issue.source {
        case Bank =>
        case Erp =>
        case Gateway =>
      }
    }
  }

  lemma MissingOnly(events: seq<Event>, source: SourceType, issue: CrossIssue)
    ensures issue in IfMissing(events, source) <==> !Present(events, source) && issue == SourceMissing(source)
  {
    hide Present;
  }

  lemma BrokenOnly(broken: bool, raised: CrossIssue, issue: CrossIssue)
    ensures issue in IfBroken(broken, raised) <==> broken && issue == raised
  {
  }
}
