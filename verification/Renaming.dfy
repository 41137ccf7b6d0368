/** Renaming a batch: new event ids in the same order, a new run, new narrations and lineage.
    Selections, searches and journals commute with it. */
module Renaming {
  import opened Events
  import opened TextOrder
  import opened Selection
  import opened Grouping
  import opened Context
  import opened SettlementRule
  import opened CaseFacts

  datatype Renaming = Renaming(
    ids: map<string, string>,
    runId: string,
    narrations: map<string, string>,
    lineages: map<string, Lineage>
  )

  function NewId(r: Renaming, id: string): string {
    if id in r.ids then r.ids[id] else id
  }

  function Rename(r: Renaming, e: Event): Event {
    e.(eventId := NewId(r, e.eventId),
       runId := r.runId,
       narration := if e.eventId in r.narrations then r.narrations[e.eventId] else e.narration,
       lineage := if e.eventId in r.lineages then r.lineages[e.eventId] else e.lineage)
  }

  function RenameAll(r: Renaming, s: seq<Event>): (t: seq<Event>)
    ensures |t| == |s|
  {
    if s == [] then [] else [Rename(r, s[0])] + RenameAll(r, s[1..])
  }

  function RenameGroups(r: Renaming, gs: seq<seq<Event>>): (hs: seq<seq<Event>>)
    ensures |hs| == |gs|
  {
    if gs == [] then [] else [RenameAll(r, gs[0])] + RenameGroups(r, gs[1..])
  }

  function RenameIds(r: Renaming, ids: set<string>): set<string> {
    set id | id in ids :: NewId(r, id)
  }

  /** The renaming keeps the order of the given ids, and so keeps them apart. */
  ghost predicate Monotone(r: Renaming, ids: set<string>) {
    forall x, y | x in ids && y in ids && Less(x, y) :: Less(NewId(r, x), NewId(r, y))
  }

  lemma {:induction false} MonotoneIsInjective(r: Renaming, ids: set<string>, x: string, y: string)
    requires Monotone(r, ids) && x in ids && y in ids
    ensures NewId(r, x) == NewId(r, y) <==> x == y
  {
    Trichotomy(x, y);
    Irreflexive(NewId(r, x));
  }

  lemma {:induction false} RenamedMember(r: Renaming, ids: set<string>, consumed: set<string>, x: string)
    requires Monotone(r, ids) && consumed <= ids && x in ids
    ensures NewId(r, x) in RenameIds(r, consumed) <==> x in consumed
  {
    if NewId(r, x) in RenameIds(r, consumed) {
      var y :| y in consumed && NewId(r, y) == NewId(r, x);
      MonotoneIsInjective(r, ids, x, y);
    }
  }

  // ---- sequences ----------------------------------------------------------------------------

  lemma {:induction false} RenameAllAt(r: Renaming, s: seq<Event>, i: nat)
    requires i < |s|
    ensures RenameAll(r, s)[i] == Rename(r, s[i])
  {
    if i > 0 {
      RenameAllAt(r, s[1..], i - 1);
    }
  }

  lemma {:induction false} RenameAllMembers(r: Renaming, s: seq<Event>)
    ensures forall x :: x in RenameAll(r, s) <==> exists e :: e in s && x == Rename(r, e)
  {
    if s != [] {
      RenameAllMembers(r, s[1..]);
      assert s == [s[0]] + s[1..];
    }
  }

  lemma {:induction false} RenameGroupsAt(r: Renaming, gs: seq<seq<Event>>, i: nat)
    requires i < |gs|
    ensures RenameGroups(r, gs)[i] == RenameAll(r, gs[i])
  {
    if i > 0 {
      RenameGroupsAt(r, gs[1..], i - 1);
    }
  }

  lemma {:induction false} RenameGroupsConcat(r: Renaming, gs: seq<seq<Event>>, hs: seq<seq<Event>>)
    ensures RenameGroups(r, gs + hs) == RenameGroups(r, gs) + RenameGroups(r, hs)
  {
    if gs == [] {
      assert gs + hs == hs;
    } else {
      assert (gs + hs)[1..] == gs[1..] + hs;
      RenameGroupsConcat(r, gs[1..], hs);
    }
  }

  lemma {:induction false} RenameAllConcat(r: Renaming, s: seq<Event>, t: seq<Event>)
    ensures RenameAll(r, s + t) == RenameAll(r, s) + RenameAll(r, t)
  {
    if s == [] {
      assert s + t == t;
    } else {
      assert (s + t)[1..] == s[1..] + t;
      RenameAllConcat(r, s[1..], t);
    }
  }

  lemma {:induction false} RenamedOrdered(r: Renaming, s: seq<Event>)
    requires Ordered(s) && Monotone(r, IdSet(s))
    ensures Ordered(RenameAll(r, s))
  {
    forall i, j | 0 <= i < j < |s| ensures Less(RenameAll(r, s)[i].eventId, RenameAll(r, s)[j].eventId) {
      RenameAllAt(r, s, i);
      RenameAllAt(r, s, j);
      assert s[i] in s && s[j] in s;
    }
  }

  lemma {:induction false} RenamedTotal(r: Renaming, s: seq<Event>)
    ensures Total(RenameAll(r, s)) == Total(s)
  {
    if s != [] {
      RenamedTotal(r, s[1..]);
    }
  }

  lemma {:induction false} RenamedSignedTotal(r: Renaming, p: Policy, s: seq<Event>)
    ensures SignedTotal(p, RenameAll(r, s)) == SignedTotal(p, s)
  {
    if s != [] {
      RenamedSignedTotal(r, p, s[1..]);
      assert SignedAmount(p, Rename(r, s[0])) == SignedAmount(p, s[0]);
    }
  }

  // ---- selections ---------------------------------------------------------------------------

  function ConsumedBy(c: Criterion): set<string> {
    match c
    case Eligible(_, _, consumed) => consumed
    case CarriesUtr(_, _, consumed) => consumed
    case ReceiptBetween(_, _, _, consumed) => consumed
    case Unclaimed(_, consumed) => consumed
    case _ => {}
  }

  /** The same filter, for the renamed batch. */
  function RenameCriterion(r: Renaming, c: Criterion): Criterion {
    match c
    case Eligible(scope, source, consumed) => Eligible(scope, source, RenameIds(r, consumed))
    case CarriesUtr(scope, reference, consumed) => CarriesUtr(scope, reference, RenameIds(r, consumed))
    case ReceiptBetween(scope, first, last, consumed) => ReceiptBetween(scope, first, last, RenameIds(r, consumed))
    case Unclaimed(source, consumed) => Unclaimed(source, RenameIds(r, consumed))
    case _ => c
  }

  lemma {:induction false} RenamedMeets(r: Renaming, ids: set<string>, e: Event, c: Criterion)
    requires Monotone(r, ids) && ConsumedBy(c) <= ids && e.eventId in ids
    ensures Meets(Rename(r, e), RenameCriterion(r, c)) <==> Meets(e, c)
  {
    RenamedMember(r, ids, ConsumedBy(c), e.eventId);
    hide Monotone, RenameIds, NewId, JournalId;
  }

  lemma {:induction false} RenamedSelect(r: Renaming, ids: set<string>, s: seq<Event>, c: Criterion)
    requires Monotone(r, ids) && ConsumedBy(c) <= ids && IdSet(s) <= ids
    ensures Select(RenameAll(r, s), RenameCriterion(r, c)) == RenameAll(r, Select(s, c))
  {
    hide Monotone, Meets, RenameCriterion, ConsumedBy, Rename;
    if s != [] {
      assert s[0] in s;
      assert IdSet(s[1..]) <= ids;
      RenamedMeets(r, ids, s[0], c);
      RenamedSelect(r, ids, s[1..], c);
      SelectHead(s, c);
      SelectHead(RenameAll(r, s), RenameCriterion(r, c));
      assert RenameAll(r, s)[1..] == RenameAll(r, s[1..]);
      hide Select;
      if Meets(s[0], c) {
        assert ([s[0]] + Select(s[1..], c))[1..] == Select(s[1..], c);
      }
    }
  }

  /** Filters that look at neither ids nor narration mean the same before and after. */
  lemma {:induction false} RenamedPlainSelect(r: Renaming, s: seq<Event>, c: Criterion)
    requires ConsumedBy(c) == {} && RenameCriterion(r, c) == c
    ensures Select(RenameAll(r, s), c) == RenameAll(r, Select(s, c))
  {
    if s != [] {
      PlainMeets(r, s[0], c);
      RenamedPlainSelect(r, s[1..], c);
      SelectHead(s, c);
      SelectHead(RenameAll(r, s), c);
      assert RenameAll(r, s)[1..] == RenameAll(r, s[1..]);
      hide Select, Meets, Rename;
      if Meets(s[0], c) {
        assert ([s[0]] + Select(s[1..], c))[1..] == Select(s[1..], c);
      }
    }
  }

  lemma PlainMeets(r: Renaming, e: Event, c: Criterion)
    requires ConsumedBy(c) == {} && RenameCriterion(r, c) == c
    ensures Meets(Rename(r, e), c) <==> Meets(e, c)
  {
    hide NewId, JournalId;
  }

  // ---- the search ---------------------------------------------------------------------------

  lemma {:induction false} RenamedPrepend(r: Renaming, e: Event, gs: seq<Group>)
    ensures Prepend(Rename(r, e), RenameGroups(r, gs)) == RenameGroups(r, Prepend(e, gs))
  {
    hide Rename;
    if gs != [] {
      RenamedPrepend(r, e, gs[1..]);
      assert ([e] + gs[0])[1..] == gs[0];
    }
  }

  lemma {:induction false} RenamedCombinations(r: Renaming, s: seq<Event>, size: nat)
    ensures Combinations(RenameAll(r, s), size) == RenameGroups(r, Combinations(s, size))
  {
    hide Rename, Prepend;
    if 0 < size <= |s| {
      assert RenameAll(r, s)[1..] == RenameAll(r, s[1..]);
      RenamedCombinations(r, s[1..], size - 1);
      RenamedCombinations(r, s[1..], size);
      RenamedPrepend(r, s[0], Combinations(s[1..], size - 1));
      RenameGroupsConcat(r, Prepend(s[0], Combinations(s[1..], size - 1)), Combinations(s[1..], size));
    }
  }

  lemma {:induction false} RenamedHitting(r: Renaming, gs: seq<Group>, target: int)
    ensures Hitting(RenameGroups(r, gs), target) == RenameGroups(r, Hitting(gs, target))
  {
    hide RenameAll, Total;
    if gs != [] {
      RenamedTotal(r, gs[0]);
      RenamedHitting(r, gs[1..], target);
      RenameGroupsConcat(r, if Total(gs[0]) == target then [gs[0]] else [], Hitting(gs[1..], target));
    }
  }

  lemma {:induction false} RenamedGroupsUpTo(r: Renaming, s: seq<Event>, size: nat, target: int)
    ensures GroupsUpTo(RenameAll(r, s), size, target) == RenameGroups(r, GroupsUpTo(s, size, target))
  {
    hide RenameAll, RenameGroups, Combinations, Hitting;
    if size > 0 {
      RenamedGroupsUpTo(r, s, size - 1, target);
      RenamedCombinations(r, s, size);
      RenamedHitting(r, Combinations(s, size), target);
      RenameGroupsConcat(r, GroupsUpTo(s, size - 1, target), Hitting(Combinations(s, size), target));
    } else {
      NoGroups(r);
    }
  }

  lemma NoGroups(r: Renaming)
    ensures RenameGroups(r, []) == []
  {
  }

  lemma {:induction false} RenamedAtMost(r: Renaming, gs: seq<Group>, n: nat)
    ensures AtMost(RenameGroups(r, gs), n) == RenameGroups(r, AtMost(gs, n))
  {
    hide RenameGroups;
    if |gs| > n {
      assert gs == gs[..n] + gs[n..];
      RenameGroupsConcat(r, gs[..n], gs[n..]);
    }
  }

  function RenameResult(r: Renaming, result: GroupingResult): GroupingResult {
    GroupingResult(RenameGroups(r, result.groups), result.boundedOut)
  }

  lemma {:induction false} RenamedSearch(r: Renaming, s: seq<Event>, target: int, g: GroupingPolicy)
    requires Ordered(s) && Monotone(r, IdSet(s))
    ensures Search(RenameAll(r, s), target, g) == RenameResult(r, Search(s, target, g))
  {
    RenamedOrdered(r, s);
    SortingOrderedIsIdentity(s);
    SortingOrderedIsIdentity(RenameAll(r, s));
    hide ById, Ordered, Monotone, RenameAll, RenameGroups, GroupsUpTo, AtMost;
    RenamedGroupsUpTo(r, s, LargestSize(s, g.maxGroupSize), target);
    RenamedAtMost(r, AllGroups(s, target, g.maxGroupSize), Limit(g));
    NoGroups(r);
  }

  // ---- groups of rows -----------------------------------------------------------------------

  lemma {:induction false} RenamedFlatten(r: Renaming, gs: seq<seq<Event>>)
    ensures Flatten(RenameGroups(r, gs)) == RenameAll(r, Flatten(gs))
  {
    hide RenameAll;
    if gs != [] {
      RenamedFlatten(r, gs[1..]);
      RenameAllConcat(r, gs[0], Flatten(gs[1..]));
    } else {
      RenamedNothing(r);
    }
  }

  lemma RenamedNothing(r: Renaming)
    ensures RenameAll(r, []) == []
  {
  }

  lemma {:induction false} RenameGroupsMembers(r: Renaming, gs: seq<seq<Event>>)
    ensures forall h :: h in RenameGroups(r, gs) <==> exists g :: g in gs && h == RenameAll(r, g)
  {
    hide RenameAll;
    if gs != [] {
      RenameGroupsMembers(r, gs[1..]);
      assert gs[0] in gs;
      assert forall g | g in gs[1..] :: g in gs;
      assert forall g | g in gs :: g == gs[0] || g in gs[1..];
    }
  }

  lemma {:induction false} RenamedConsidered(r: Renaming, groups: seq<Group>, universe: seq<Event>)
    requires Ordered(universe) && Monotone(r, IdSet(universe))
    requires forall g, e | g in groups && e in g :: e in universe
    ensures Considered(RenameGroups(r, groups)) == RenameAll(r, Considered(groups))
  {
    var renamed := RenameGroups(r, groups);
    RenamedOrdered(r, universe);
    ConsideredMembers(groups, universe);
    hide Ordered, Monotone, Considered, RenameGroups, RenameAll, Rename;
    forall h, x | h in renamed && x in h ensures x in RenameAll(r, universe) {
      GroupRowRenamed(r, groups, h, x);
      RenameAllMembers(r, universe);
    }
    ConsideredMembers(renamed, RenameAll(r, universe));
    assert Ordered(RenameAll(r, Considered(groups))) by {
      SubsetMonotone(r, Considered(groups), universe);
      RenamedOrdered(r, Considered(groups));
    }
    forall x ensures x in Considered(renamed) <==> x in RenameAll(r, Considered(groups)) {
      RenameAllMembers(r, Considered(groups));
      if h :| h in renamed && x in h {
        GroupRowRenamed(r, groups, h, x);
      }
      if e :| e in Considered(groups) && x == Rename(r, e) {
        RowOfRenamedGroup(r, groups, e);
      }
    }
    OrderedExtensional(Considered(renamed), RenameAll(r, Considered(groups)));
  }

  lemma {:induction false} SubsetMonotone(r: Renaming, s: seq<Event>, universe: seq<Event>)
    requires Monotone(r, IdSet(universe)) && forall e | e in s :: e in universe
    ensures Monotone(r, IdSet(s))
  {
    assert IdSet(s) <= IdSet(universe);
  }

  lemma {:induction false} GroupRowRenamed(r: Renaming, groups: seq<Group>, h: Group, x: Event)
    requires h in RenameGroups(r, groups) && x in h
    ensures exists g, e :: g in groups && e in g && x == Rename(r, e)
  {
    RenameGroupsMembers(r, groups);
    var g :| g in groups && h == RenameAll(r, g);
    RenameAllMembers(r, g);
    var e :| e in g && x == Rename(r, e);
  }

  lemma {:induction false} RowOfRenamedGroup(r: Renaming, groups: seq<Group>, e: Event)
    requires exists g :: g in groups && e in g
    ensures exists h :: h in RenameGroups(r, groups) && Rename(r, e) in h
  {
    var g :| g in groups && e in g;
    RenameGroupsMembers(r, groups);
    RenameAllMembers(r, g);
    assert RenameAll(r, g) in RenameGroups(r, groups);
  }

  lemma {:induction false} RenamedJournals(r: Renaming, lines: seq<Event>)
    ensures Journals(RenameAll(r, lines)) == RenameGroups(r, Journals(lines))
  {
    var renamed := RenameAll(r, lines);
    forall i | 0 <= i < |lines| ensures renamed[i].recordId == lines[i].recordId {
      RenameAllAt(r, lines, i);
    }
    assert JournalKeys(renamed) == JournalKeys(lines);
    var ids := SortedDistinct(JournalKeys(lines));
    hide SortedDistinct, JournalKeys, RenameAll, RenameGroups, Select, Monotone, JournalId;
    forall i | 0 <= i < |ids| ensures Journals(renamed)[i] == RenameGroups(r, Journals(lines))[i] {
      RenamedPlainSelect(r, lines, InJournal(ids[i]));
      RenameGroupsAt(r, Journals(lines), i);
    }
  }
}
