/** The batch that a correction run reads: every row again under a new run, plus the posted journal. */
module Rerun {
  import opened Events
  import opened TextOrder
  import opened Selection
  import opened Transforms
  import opened Context
  import opened Ledger
  import opened Money
  import opened Renaming
  import opened Mirror

  /** What the adapters guarantee of a stored run: event ids are made of run, source and record. */
  ghost predicate Issued(runId: string, events: seq<Event>) {
    forall e | e in events :: e.runId == runId && e.eventId == EventId(runId, e.source, e.recordId)
  }

  /** Importing the same rows under a new run: new ids, and lineage into the new files. */
  function Reimport(runId: string, events: seq<Event>, newRun: string, lineages: map<string, Lineage>): Renaming {
    Renaming(map id | id in IdSet(events) && |runId| <= |id| :: newRun + id[|runId|..], newRun, map[], lineages)
  }

  lemma {:induction false} ReissuedId(runId: string, events: seq<Event>, newRun: string, lineages: map<string, Lineage>, e: Event)
    requires Issued(runId, events) && e in events
    ensures NewId(Reimport(runId, events, newRun, lineages), e.eventId) == EventId(newRun, e.source, e.recordId)
  {
    hide IdSuffix;
    assert e.eventId[|runId|..] == IdSuffix(e.source, e.recordId);
    assert e.eventId in IdSet(events);
  }

  lemma {:induction false} ReimportKeepsOrder(runId: string, events: seq<Event>, newRun: string, lineages: map<string, Lineage>)
    requires Issued(runId, events)
    ensures Monotone(Reimport(runId, events, newRun, lineages), IdSet(events))
  {
    var r := Reimport(runId, events, newRun, lineages);
    hide IdSuffix, Reimport;
    forall x, y | x in IdSet(events) && y in IdSet(events) && Less(x, y) ensures Less(NewId(r, x), NewId(r, y)) {
      var e :| e in events && e.eventId == x;
      var g :| g in events && g.eventId == y;
      ReissuedId(runId, events, newRun, lineages, e);
      ReissuedId(runId, events, newRun, lineages, g);
      SharedPrefix(runId, IdSuffix(e.source, e.recordId), IdSuffix(g.source, g.recordId));
      SharedPrefix(newRun, IdSuffix(e.source, e.recordId), IdSuffix(g.source, g.recordId));
    }
  }

  // ---- the posted journal -------------------------------------------------------------------

  /** Where an approved journal is posted: its id, date and reference, and the run that reads it. */
  datatype Slip = Slip(journalId: string, day: int, reference: string, runId: string, entity: string)

  function Posting(line: JournalLine, number: nat, slip: Slip, lineage: Lineage): Event {
    BuildEvent(ErpValues(slip.journalId, number, slip.day, line.account, line.amount, line.direction, line.currency,
                         slip.reference, Strip(NARRATION_PREFIX + line.narration)),
               slip.runId, slip.entity, lineage)
  }

  /** The events of a posted journal. */
  function Postings(lines: seq<JournalLine>, slip: Slip, lineages: seq<Lineage>): seq<Event>
    requires |lineages| == |lines|
  {
    seq(|lines|, i requires 0 <= i < |lines| => Posting(lines[i], i + 1, slip, lineages[i]))
  }

  lemma {:induction false} PostingJournal(line: JournalLine, number: nat, slip: Slip, lineage: Lineage)
    ensures JournalId(Posting(line, number, slip, lineage).recordId) == slip.journalId
  {
    var v := ErpValues(slip.journalId, number, slip.day, line.account, line.amount, line.direction, line.currency,
                       slip.reference, Strip(NARRATION_PREFIX + line.narration));
    JournalOfRecord(v);
    hide Strip, JournalId, RecordId;
  }

  lemma PostingId(line: JournalLine, number: nat, slip: Slip, lineage: Lineage)
    requires number < 10
    ensures Posting(line, number, slip, lineage).eventId == slip.runId + ":ERP:" + slip.journalId + ":" + [DigitOf(number)]
  {
    hide Strip;
    assert Digits(number) == [DigitOf(number)];
    assert ":" + ("ERP" + (":" + (slip.journalId + ":" + [DigitOf(number)]))) == ":ERP:" + slip.journalId + ":" + [DigitOf(number)];
  }

  lemma {:induction false} PostingsAreOrdered(lines: seq<JournalLine>, slip: Slip, lineages: seq<Lineage>)
    requires |lines| == |lineages| < 10
    ensures Ordered(Postings(lines, slip, lineages))
  {
    var events := Postings(lines, slip, lineages);
    var prefix := slip.runId + ":ERP:" + slip.journalId + ":";
    hide Posting;
    forall i, j | 0 <= i < j < |events| ensures Less(events[i].eventId, events[j].eventId) {
      PostingId(lines[i], i + 1, slip, lineages[i]);
      PostingId(lines[j], j + 1, slip, lineages[j]);
      SharedPrefix(prefix, [DigitOf(i + 1)], [DigitOf(j + 1)]);
      assert [DigitOf(i + 1)][0] < [DigitOf(j + 1)][0];
    }
  }

  /** Posted events add up to what the journal says, by side and by role. */
  lemma {:induction false} PostedSums(p: Policy, lines: seq<JournalLine>, events: seq<Event>, role: Role, side: Direction)
    requires |lines| == |events|
    requires forall i | 0 <= i < |lines| ::
      events[i].account == lines[i].account && events[i].amount == lines[i].amount && events[i].direction == lines[i].direction
    ensures Total(Select(events, PostedTo(role))) == RoleSum(lines, role)
    ensures Total(Select(events, OnSide(side))) == SideSum(lines, side)
  {
    hide Select, Total;
    if lines != [] {
      PostedSums(p, lines[1..], events[1..], role, side);
      SumOfHead(p, events, PostedTo(role));
      SumOfHead(p, events, OnSide(side));
    } else {
      NothingPosted();
    }
  }

  lemma NothingPosted()
    ensures forall c :: Total(Select([], c)) == 0
  {
  }

  // ---- the corrected batch ------------------------------------------------------------------

  function CorrectedEvents(runId: string, events: seq<Event>, newRun: string, lineages: map<string, Lineage>,
                           posted: seq<Event>): seq<Event> {
    RenameAll(Reimport(runId, events, newRun, lineages), events) + posted
  }

  /** No row of the old run belongs to a journal of the given id. */
  ghost predicate FreshJournal(events: seq<Event>, journalId: string) {
    forall e | e in events && e.source == Erp :: JournalId(e.recordId) != journalId
  }

  ghost predicate PostedUnder(posted: seq<Event>, b: Batch, slip: Slip) {
    && slip.entity == b.scope.entity
    && forall x | x in posted ::
         && x.source == Erp && x.runId == slip.runId && InScope(x, b.scope)
         && x.eventId == EventId(slip.runId, Erp, x.recordId) && JournalId(x.recordId) == slip.journalId
  }

  lemma {:induction false} ReimportedIdsAreUnique(runId: string, events: seq<Event>, newRun: string, lineages: map<string, Lineage>)
    requires UniqueIds(events) && Issued(runId, events)
    ensures UniqueIds(RenameAll(Reimport(runId, events, newRun, lineages), events))
  {
    var r := Reimport(runId, events, newRun, lineages);
    ReimportKeepsOrder(runId, events, newRun, lineages);
    hide Monotone, Reimport, Issued, NewId;
    forall i, j | 0 <= i < j < |events| ensures RenameAll(r, events)[i].eventId != RenameAll(r, events)[j].eventId {
      RenameAllAt(r, events, i);
      RenameAllAt(r, events, j);
      assert events[i] in events && events[j] in events;
      MonotoneIsInjective(r, IdSet(events), events[i].eventId, events[j].eventId);
    }
  }

  lemma {:induction false} PostedIdIsNew(runId: string, events: seq<Event>, newRun: string, lineages: map<string, Lineage>,
                                         e: Event, x: Event)
    requires Issued(runId, events) && e in events && (e.source == Erp ==> JournalId(e.recordId) != JournalId(x.recordId))
    requires x.eventId == EventId(newRun, Erp, x.recordId)
    ensures Rename(Reimport(runId, events, newRun, lineages), e).eventId != x.eventId
  {
    ReissuedId(runId, events, newRun, lineages, e);
    hide IdSuffix, Reimport, JournalId;
    if EventId(newRun, e.source, e.recordId) == EventId(newRun, Erp, x.recordId) {
      assert EventId(newRun, e.source, e.recordId)[|newRun|..] == IdSuffix(e.source, e.recordId);
      assert EventId(newRun, Erp, x.recordId)[|newRun|..] == IdSuffix(Erp, x.recordId);
      IdSuffixIsInjective(e.source, e.recordId, Erp, x.recordId);
    }
  }

  lemma {:induction false} CorrectedIdsAreUnique(runId: string, events: seq<Event>, lineages: map<string, Lineage>,
                                                 posted: seq<Event>, b: Batch, slip: Slip)
    requires UniqueIds(events) && Issued(runId, events) && FreshJournal(events, slip.journalId)
    requires PostedUnder(posted, b, slip) && UniqueIds(posted)
    ensures UniqueIds(CorrectedEvents(runId, events, slip.runId, lineages, posted))
  {
    var r := Reimport(runId, events, slip.runId, lineages);
    ReimportedIdsAreUnique(runId, events, slip.runId, lineages);
    RenameAllMembers(r, events);
    hide Reimport, Issued, RenameAll, Rename, JournalId, EventId;
    var again := RenameAll(r, events);
    forall y, x | y in again && x in posted ensures y.eventId != x.eventId {
      var e :| e in events && y == Rename(r, e);
      PostedIdIsNew(runId, events, slip.runId, lineages, e, x);
    }
  }

  /** The corrected events make a batch that mirrors the old one, with the posted journal as the only
      extra lines. */
  lemma {:induction false} CorrectedBatchMirrors(events: seq<Event>, policy: Policy, lineages: map<string, Lineage>,
                                                 posted: seq<Event>, slip: Slip)
    requires UniqueIds(events) && BatchOf(events, policy).Ok?
    requires var b := BatchOf(events, policy).value;
      Issued(b.runId, events) && PostedUnder(posted, b, slip) && UniqueIds(posted) && FreshJournal(events, slip.journalId)
    ensures var b := BatchOf(events, policy).value;
      var m := BatchOf(CorrectedEvents(b.runId, events, slip.runId, lineages, posted), policy);
      && m.Ok? && m.value.runId == slip.runId
      && Mirrors(b, m.value, Reimport(b.runId, events, slip.runId, lineages), posted)
  {
    var b := BatchOf(events, policy).value;
    var r := Reimport(b.runId, events, slip.runId, lineages);
    var all := CorrectedEvents(b.runId, events, slip.runId, lineages, posted);
    AcceptedBatchIsWellFormed(events, policy);
    CorrectedIdsAreUnique(b.runId, events, lineages, posted, b, slip);
    ReimportKeepsOrder(b.runId, events, slip.runId, lineages);
    ByIdMembers(events);
    assert b.events == ById(events) && r.runId == slip.runId;
    hide Reimport, Issued, RenameAll, JournalId, EventId, ById, Ordered, UniqueIds, Monotone, NewId, PostedUnder, FreshJournal, Rename;
    SameIds(events, b.events);
    CorrectedScope(b, events, r, posted, slip);
    assert all != [] by {
      assert |all| >= |events|;
    }
    OneScope(all, policy, slip.runId, b.scope);
    AcceptedBatchIsWellFormed(all, policy);
    PostedAreErp(posted, b, slip);
    SameMembersMirror(b, Batch(slip.runId, b.scope, ById(all), policy), events, r, posted);
  }

  lemma {:induction false} SameMembersMirror(b: Batch, m: Batch, events: seq<Event>, r: Renaming, posted: seq<Event>)
    requires WellFormed(b) && WellFormed(m) && m.scope == b.scope && m.policy == b.policy
    requires Monotone(r, IdSet(b.events))
    requires forall e :: e in b.events <==> e in events
    requires m.events == ById(RenameAll(r, events) + posted) && forall x | x in posted :: x.source == Erp
    ensures Mirrors(b, m, r, posted)
  {
    ByIdMembers(RenameAll(r, events) + posted);
    RenameAllMembers(r, events);
    RenameAllMembers(r, b.events);
    hide RenameAll, ById, Rename, Monotone, WellFormed;
  }

  lemma {:induction false} CorrectedScope(b: Batch, events: seq<Event>, r: Renaming, posted: seq<Event>, slip: Slip)
    requires PostedUnder(posted, b, slip) && r.runId == slip.runId && forall e | e in events :: InScope(e, b.scope)
    ensures forall x | x in RenameAll(r, events) + posted :: x.runId == slip.runId && InScope(x, b.scope)
  {
    RenameAllMembers(r, events);
    hide RenameAll, JournalId, EventId, NewId;
  }

  lemma PostedAreErp(posted: seq<Event>, b: Batch, slip: Slip)
    requires PostedUnder(posted, b, slip)
    ensures forall x | x in posted :: x.source == Erp
  {
  }

  lemma {:induction false} SameIds(s: seq<Event>, t: seq<Event>)
    requires forall e :: e in s <==> e in t
    ensures IdSet(s) == IdSet(t)
  {
  }

  lemma {:induction false} OneScope(events: seq<Event>, policy: Policy, runId: string, scope: Scope)
    requires events != [] && scope.currency == policy.currency
    requires forall e | e in events :: e.runId == runId && InScope(e, scope)
    ensures BatchOf(events, policy) == Ok(Batch(runId, scope, ById(events), policy))
  {
    hide ById;
    assert events[0] in events;
    assert (set e | e in events :: e.runId) == {runId};
    assert (set e | e in events :: e.entity) == {scope.entity};
    assert (set e | e in events :: e.currency) == {policy.currency};
  }
}
