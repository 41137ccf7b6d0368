/** The bounded subset search: which small groups of candidates add up to the target? */
module Grouping {
  import opened Events
  import opened TextOrder
  import opened Selection

  type Group = seq<Event>

  datatype GroupingResult = GroupingResult(groups: seq<Group>, boundedOut: bool)

  // ---- the reference definition -------------------------------------------------------------

  function Prepend(e: Event, gs: seq<Group>): seq<Group> {
    if gs == [] then [] else [[e] + gs[0]] + Prepend(e, gs[1..])
  }

  /** `itertools.combinations(s, size)`: sub-lists of the given size, in lexicographic order. */
  function Combinations(s: seq<Event>, size: nat): seq<Group> {
    if size == 0 then [[]]
    else if |s| < size then []
    else Prepend(s[0], Combinations(s[1..], size - 1)) + Combinations(s[1..], size)
  }

  function Hitting(gs: seq<Group>, target: int): seq<Group> {
    if gs == [] then []
    else (if Total(gs[0]) == target then [gs[0]] else []) + Hitting(gs[1..], target)
  }

  /** All groups of at most `size` members that hit the target, smaller groups first. */
  function GroupsUpTo(s: seq<Event>, size: nat, target: int): seq<Group> {
    if size == 0 then [] else GroupsUpTo(s, size - 1, target) + Hitting(Combinations(s, size), target)
  }

  function LargestSize(s: seq<Event>, maxGroupSize: int): nat {
    if maxGroupSize <= 0 then 0 else if maxGroupSize < |s| then maxGroupSize else |s|
  }

  function AllGroups(s: seq<Event>, target: int, maxGroupSize: int): seq<Group> {
    GroupsUpTo(s, LargestSize(s, maxGroupSize), target)
  }

  /** The search stops once this many groups are found; a found group is kept even if the
      threshold is not positive. */
  function Limit(policy: GroupingPolicy): (n: nat)
    ensures n >= 1
  {
    if policy.maxValidGroups < 1 then 1 else policy.maxValidGroups
  }

  function AtMost(gs: seq<Group>, n: nat): seq<Group> {
    if |gs| <= n then gs else gs[..n]
  }

  function Search(candidates: seq<Event>, target: int, policy: GroupingPolicy): GroupingResult {
    var ordered := ById(candidates);
    if |ordered| > policy.maxCandidates then GroupingResult([], true)
    else GroupingResult(AtMost(AllGroups(ordered, target, policy.maxGroupSize), Limit(policy)), false)
  }

  // ---- the search itself --------------------------------------------------------------------

  /** The nested loops with early exit compute the first groups of the reference definition. */
  method AmountGroups(candidates: seq<Event>, target: int, policy: GroupingPolicy) returns (r: GroupingResult)
    ensures r == Search(candidates, target, policy)
  {
    hide Combinations, Hitting;
    var ordered := ById(candidates);
    if |ordered| > policy.maxCandidates {
      return GroupingResult([], true);
    }
    var found: seq<Group> := [];
    var largest := LargestSize(ordered, policy.maxGroupSize);
    var size := 1;
    while size <= largest
      invariant 1 <= size <= largest + 1
      invariant found == GroupsUpTo(ordered, size - 1, target)
      invariant |found| < Limit(policy)
    {
      var groups := Combinations(ordered, size);
      SearchedNone(ordered, target, size);
      for j := 0 to |groups|
        invariant found == Searched(ordered, target, size, j)
        invariant |found| < Limit(policy)
      {
        SearchedNext(ordered, target, size, j);
        if Total(groups[j]) == target {
          found := found + [groups[j]];
          if |found| >= policy.maxValidGroups {
            StoppingEarly(ordered, target, policy, size, j + 1);
            return GroupingResult(found, false);
          }
        }
      }
      SearchedAll(ordered, target, size);
      size := size + 1;
    }
    r := GroupingResult(found, false);
  }

  /** What the loops have found before looking at combination `j` of the given size. */
  ghost function Searched(s: seq<Event>, target: int, size: nat, j: nat): seq<Group>
    requires size >= 1 && j <= |Combinations(s, size)|
  {
    GroupsUpTo(s, size - 1, target) + Hitting(Combinations(s, size)[..j], target)
  }

  lemma {:induction false} SearchedNext(s: seq<Event>, target: int, size: nat, j: nat)
    requires size >= 1 && j < |Combinations(s, size)|
    ensures Searched(s, target, size, j + 1) == Searched(s, target, size, j)
         + (if Total(Combinations(s, size)[j]) == target then [Combinations(s, size)[j]] else [])
  {
    HittingSnoc(Combinations(s, size), j, target);
  }

  lemma {:induction false} SearchedNone(s: seq<Event>, target: int, size: nat)
    requires size >= 1
    ensures Searched(s, target, size, 0) == GroupsUpTo(s, size - 1, target)
  {
    assert Combinations(s, size)[..0] == [];
  }

  lemma {:induction false} SearchedAll(s: seq<Event>, target: int, size: nat)
    requires size >= 1
    ensures Searched(s, target, size, |Combinations(s, size)|) == GroupsUpTo(s, size, target)
  {
    var groups := Combinations(s, size);
    assert groups[..|groups|] == groups;
  }

  lemma {:induction false} SearchedIsPrefix(s: seq<Event>, target: int, size: nat, j: nat)
    requires size >= 1 && j <= |Combinations(s, size)|
    ensures Searched(s, target, size, j) <= GroupsUpTo(s, size, target)
  {
    HittingPrefix(Combinations(s, size), j, target);
    hide Combinations, Hitting;
  }

  lemma {:induction false} StoppingEarly(s: seq<Event>, target: int, policy: GroupingPolicy, size: nat, j: nat)
    requires 1 <= size <= LargestSize(s, policy.maxGroupSize) && j <= |Combinations(s, size)|
    requires |Searched(s, target, size, j)| == Limit(policy)
    ensures Searched(s, target, size, j) == AtMost(AllGroups(s, target, policy.maxGroupSize), Limit(policy))
  {
    hide Combinations, Hitting, GroupsUpTo, Limit;
    SearchedIsPrefix(s, target, size, j);
    GroupsPrefix(s, size, LargestSize(s, policy.maxGroupSize), target);
    assert AllGroups(s, target, policy.maxGroupSize) == GroupsUpTo(s, LargestSize(s, policy.maxGroupSize), target);
    hide Searched, LargestSize, AllGroups, AtMost;
    PrefixTaken(Searched(s, target, size, j), GroupsUpTo(s, size, target), AllGroups(s, target, policy.maxGroupSize), Limit(policy));
  }

  lemma PrefixTaken(found: seq<Group>, some: seq<Group>, all: seq<Group>, n: nat)
    requires found <= some <= all && |found| == n
    ensures found == AtMost(all, n)
  {
    assert found <= all;
  }

  lemma {:induction false} HittingConcat(a: seq<Group>, b: seq<Group>, target: int)
    ensures Hitting(a + b, target) == Hitting(a, target) + Hitting(b, target)
  {
    if a == [] {
      assert a + b == b;
    } else {
      assert (a + b)[1..] == a[1..] + b;
      HittingConcat(a[1..], b, target);
    }
  }

  lemma {:induction false} HittingSnoc(gs: seq<Group>, j: nat, target: int)
    requires j < |gs|
    ensures Hitting(gs[..j + 1], target)
         == Hitting(gs[..j], target) + (if Total(gs[j]) == target then [gs[j]] else [])
  {
    assert gs[..j + 1] == gs[..j] + [gs[j]];
    HittingConcat(gs[..j], [gs[j]], target);
  }

  lemma {:induction false} HittingPrefix(gs: seq<Group>, j: nat, target: int)
    requires j <= |gs|
    ensures Hitting(gs[..j], target) <= Hitting(gs, target)
  {
    assert gs == gs[..j] + gs[j..];
    HittingConcat(gs[..j], gs[j..], target);
  }

  lemma {:induction false} GroupsPrefix(s: seq<Event>, m: nat, n: nat, target: int)
    requires m <= n
    ensures GroupsUpTo(s, m, target) <= GroupsUpTo(s, n, target)
    decreases n
  {
    if m < n {
      GroupsPrefix(s, m, n - 1, target);
    }
  }

  // ---- exactness ----------------------------------------------------------------------------

  /** An id-ordered selection from `s`: one representative of each subset. */
  ghost predicate SubList(g: Group, s: seq<Event>) {
    Ordered(g) && forall e | e in g :: e in s
  }

  ghost predicate Lexicographic(g: Group, h: Group)
    requires |g| == |h|
  {
    g != [] && (Less(g[0].eventId, h[0].eventId) || (g[0] == h[0] && Lexicographic(g[1..], h[1..])))
  }

  /** Smaller groups first, then lexicographically by event id. */
  ghost predicate Precedes(g: Group, h: Group) {
    |g| < |h| || (|g| == |h| && Lexicographic(g, h))
  }

  ghost predicate InSearchOrder(gs: seq<Group>) {
    forall i, j | 0 <= i < j < |gs| :: Precedes(gs[i], gs[j])
  }

  lemma {:induction false} LexicographicIsIrreflexive(g: Group)
    ensures !Lexicographic(g, g)
  {
    if g != [] {
      Irreflexive(g[0].eventId);
      LexicographicIsIrreflexive(g[1..]);
    }
  }

  lemma {:induction false} PrependMembers(e: Event, gs: seq<Group>, g: Group)
    ensures g in Prepend(e, gs) <==> g != [] && g[0] == e && g[1..] in gs
  {
    if gs != [] {
      PrependMembers(e, gs[1..], g);
      if g != [] && g[0] == e && g[1..] == gs[0] {
        assert g == [e] + gs[0];
      }
    }
  }

  lemma {:induction false} PrependAt(e: Event, gs: seq<Group>, i: nat)
    requires i < |gs|
    ensures |Prepend(e, gs)| == |gs| && Prepend(e, gs)[i] == [e] + gs[i]
  {
    if i > 0 {
      PrependAt(e, gs[1..], i - 1);
    } else if |gs| > 1 {
      PrependAt(e, gs[1..], 0);
    }
  }

  lemma {:induction false} CombinationMembers(s: seq<Event>, size: nat, g: Group)
    requires Ordered(s)
    ensures g in Combinations(s, size) <==> |g| == size && SubList(g, s)
  {
    if size == 0 {
    } else if |s| < size {
      if |g| == size && SubList(g, s) {
        SubListIsShort(g, s);
      }
    } else {
      PrependMembers(s[0], Combinations(s[1..], size - 1), g);
      CombinationMembers(s[1..], size, g);
      if g != [] {
        CombinationMembers(s[1..], size - 1, g[1..]);
        SubListSplit(g, s);
      }
    }
  }

  lemma {:induction false} SubListSplit(g: Group, s: seq<Event>)
    requires Ordered(s) && s != [] && g != []
    ensures SubList(g, s) <==> SubList(g, s[1..]) || (g[0] == s[0] && SubList(g[1..], s[1..]))
  {
    if SubList(g, s) {
      if s[0] in g {
        HeadPrecedes(g, s);
        forall e | e in g[1..] ensures e in s[1..] {
          TailMembers(g, e);
          TailMembers(s, e);
        }
      } else {
        forall e | e in g ensures e in s[1..] {
          TailMembers(s, e);
        }
      }
    }
    if g[0] == s[0] && SubList(g[1..], s[1..]) {
      assert g == [g[0]] + g[1..];
      forall j | 0 < j < |g| ensures Less(g[0].eventId, g[j].eventId) {
        assert g[j] == g[1..][j - 1];
        assert g[1..][j - 1] in s[1..];
      }
    }
  }

  lemma {:induction false} SubListIsShort(g: Group, s: seq<Event>)
    requires Ordered(s) && SubList(g, s)
    ensures |g| <= |s|
  {
    assert g != [] ==> g[0] in s;
    if g != [] {
      SubListSplit(g, s);
      if SubList(g, s[1..]) {
        SubListIsShort(g, s[1..]);
      } else {
        SubListIsShort(g[1..], s[1..]);
      }
    }
  }

  lemma {:induction false} PrependInOrder(e: Event, gs: seq<Group>)
    requires InSearchOrder(gs) && forall i, j | 0 <= i < |gs| && 0 <= j < |gs| :: |gs[i]| == |gs[j]|
    ensures InSearchOrder(Prepend(e, gs)) && |Prepend(e, gs)| == |gs|
  {
    var a := Prepend(e, gs);
    forall i ensures 0 <= i < |gs| ==> |a| == |gs| && a[i] == [e] + gs[i] {
      if 0 <= i < |gs| {
        PrependAt(e, gs, i);
      }
    }
    PrependMembers(e, gs, []);
    hide Prepend;
    forall i, j | 0 <= i < j < |a| ensures Precedes(a[i], a[j]) {
      assert Precedes(gs[i], gs[j]);
      assert a[i][1..] == gs[i] && a[j][1..] == gs[j];
    }
  }

  lemma {:induction false} CombinationsInOrder(s: seq<Event>, size: nat)
    requires Ordered(s)
    ensures InSearchOrder(Combinations(s, size))
  {
    if 0 < size <= |s| {
      var first, second := Combinations(s[1..], size - 1), Combinations(s[1..], size);
      CombinationsInOrder(s[1..], size - 1);
      CombinationsInOrder(s[1..], size);
      var a := Prepend(s[0], first);
      forall i | 0 <= i < |first| ensures |first[i]| == size - 1 {
        CombinationMembers(s[1..], size - 1, first[i]);
      }
      PrependInOrder(s[0], first);
      assert Combinations(s, size) == a + second;
      hide Combinations, Lexicographic, SubList;
      forall g, h | g in a && h in second ensures Precedes(g, h) {
        PrependedComesFirst(s, size, first, second, g, h);
      }
      hide Precedes, Prepend;
      assert forall i, j | 0 <= i < j < |a + second| :: Precedes((a + second)[i], (a + second)[j]);
    }
  }

  /** Groups with the first candidate come before those without it. */
  lemma {:induction false} PrependedComesFirst(s: seq<Event>, size: nat, first: seq<Group>, second: seq<Group>, g: Group, h: Group)
    requires Ordered(s) && 0 < size <= |s|
    requires first == Combinations(s[1..], size - 1) && second == Combinations(s[1..], size)
    requires g in Prepend(s[0], first) && h in second
    ensures Precedes(g, h)
  {
    PrependMembers(s[0], first, g);
    CombinationMembers(s[1..], size, h);
    if g != [] {
      CombinationMembers(s[1..], size - 1, g[1..]);
    }
    hide Combinations, Prepend;
    assert h[0] in h;
    assert h[0] in s[1..];
  }

  lemma {:induction false} HittingMembers(gs: seq<Group>, target: int, g: Group)
    ensures g in Hitting(gs, target) <==> g in gs && Total(g) == target
  {
    if gs != [] {
      HittingMembers(gs[1..], target, g);
    }
  }

  lemma {:induction false} HittingInOrder(gs: seq<Group>, target: int)
    requires InSearchOrder(gs)
    ensures InSearchOrder(Hitting(gs, target))
  {
    if gs != [] {
      HittingInOrder(gs[1..], target);
      var rest := Hitting(gs[1..], target);
      forall j | 0 <= j < |rest| ensures Precedes(gs[0], rest[j]) {
        HittingMembers(gs[1..], target, rest[j]);
      }
    }
  }

  lemma {:induction false} GroupMembers(s: seq<Event>, size: nat, target: int, g: Group)
    requires Ordered(s)
    ensures g in GroupsUpTo(s, size, target)
       <==> 1 <= |g| <= size && SubList(g, s) && Total(g) == target
  {
    hide Combinations;
    if size > 0 {
      GroupMembers(s, size - 1, target, g);
      HittingMembers(Combinations(s, size), target, g);
      CombinationMembers(s, size, g);
    }
  }

  lemma {:induction false} LaterSizesAreLarger(s: seq<Event>, size: nat, target: int, g: Group, h: Group)
    requires Ordered(s) && size > 0
    requires g in GroupsUpTo(s, size - 1, target) && h in Hitting(Combinations(s, size), target)
    ensures |g| < |h|
  {
    hide Combinations;
    GroupMembers(s, size - 1, target, g);
    HittingMembers(Combinations(s, size), target, h);
    CombinationMembers(s, size, h);
  }

  lemma {:induction false} GroupsInOrder(s: seq<Event>, size: nat, target: int)
    requires Ordered(s)
    ensures InSearchOrder(GroupsUpTo(s, size, target))
  {
    hide Combinations, Hitting, Precedes;
    if size > 0 {
      GroupsInOrder(s, size - 1, target);
      CombinationsInOrder(s, size);
      HittingInOrder(Combinations(s, size), target);
      var a, b := GroupsUpTo(s, size - 1, target), Hitting(Combinations(s, size), target);
      forall g, h | g in a && h in b ensures |g| < |h| {
        LaterSizesAreLarger(s, size, target, g, h);
      }
      InOrderConcat(a, b);
    }
  }

  lemma {:induction false} InOrderConcat(a: seq<Group>, b: seq<Group>)
    requires InSearchOrder(a) && InSearchOrder(b)
    requires forall g, h | g in a && h in b :: |g| < |h|
    ensures InSearchOrder(a + b)
  {
  }

  /** A group the search may report: a subset of the candidates, within the size bound, on target. */
  ghost predicate IsValidGroup(g: Group, candidates: seq<Event>, target: int, maxGroupSize: int) {
    1 <= |g| <= maxGroupSize && SubList(g, candidates) && Total(g) == target
  }

  lemma {:induction false} AllGroupsIsComplete(s: seq<Event>, target: int, maxGroupSize: int, g: Group)
    requires Ordered(s)
    ensures g in AllGroups(s, target, maxGroupSize) <==> IsValidGroup(g, s, target, maxGroupSize)
  {
    GroupMembers(s, LargestSize(s, maxGroupSize), target, g);
    if SubList(g, s) {
      SubListIsShort(g, s);
    }
  }

  /** The bounded search is exact: within the candidate bound it reports valid groups only, each
      once, in search order; if it reports fewer than the threshold it reports every valid group;
      and what it leaves out comes after everything it reports. Beyond the bound it reports none. */
  lemma {:induction false} SearchIsExact(candidates: seq<Event>, target: int, policy: GroupingPolicy)
    requires UniqueIds(candidates)
    ensures var r := Search(candidates, target, policy);
      && (r.boundedOut <==> |candidates| > policy.maxCandidates)
      && (r.boundedOut ==> r.groups == [])
      && |r.groups| <= Limit(policy)
      && InSearchOrder(r.groups)
      && (forall i, j | 0 <= i < j < |r.groups| :: r.groups[i] != r.groups[j])
      && (forall g | g in r.groups :: IsValidGroup(g, candidates, target, policy.maxGroupSize))
      && (!r.boundedOut ==> forall g | IsValidGroup(g, candidates, target, policy.maxGroupSize) && g !in r.groups ::
            |r.groups| == Limit(policy) && forall h | h in r.groups :: Precedes(h, g))
  {
    var ordered := ById(candidates);
    ByIdOrdered(candidates);
    ByIdMembers(candidates);
    var all := AllGroups(ordered, target, policy.maxGroupSize);
    var r := Search(candidates, target, policy);
    GroupsInOrder(ordered, LargestSize(ordered, policy.maxGroupSize), target);
    forall g ensures g in all <==> IsValidGroup(g, candidates, target, policy.maxGroupSize) {
      AllGroupsIsComplete(ordered, target, policy.maxGroupSize, g);
    }
    if !r.boundedOut {
      assert r.groups <= all;
      forall i, j | 0 <= i < j < |r.groups| ensures r.groups[i] != r.groups[j] {
        LexicographicIsIrreflexive(r.groups[i]);
      }
      forall g | IsValidGroup(g, candidates, target, policy.maxGroupSize) && g !in r.groups
        ensures |r.groups| == Limit(policy) && forall h | h in r.groups :: Precedes(h, g)
      {
        var k :| 0 <= k < |all| && all[k] == g;
        assert k >= |r.groups|;
      }
    }
  }
}
