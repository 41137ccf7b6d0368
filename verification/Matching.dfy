/** The evaluator's assignment of predicted cases to true cases: greedy by overlap. */
module Matching {
  import opened Events
  import opened TextOrder
  import Gate

  /** A case as the hidden truth labels it; `treatment` is what a true exception should say. */
  datatype Truth = Truth(caseId: string, members: set<string>, level: Gate.ProofLevel, treatment: Treatment)

  /** A stored decision, with its exception's treatment if it has one. */
  datatype Prediction = Prediction(decisionId: string, members: set<string>, level: Gate.ProofLevel, autoCleared: bool,
                                   treatment: Option<Treatment>)

  datatype Pair = Pair(overlap: nat, union: nat, caseId: string, prediction: Prediction)

  // ---- candidate pairs ----------------------------------------------------------------------

  function Overlap(c: Truth, p: Prediction): nat {
    |c.members * p.members|
  }

  function PairOf(c: Truth, p: Prediction): Pair {
    Pair(Overlap(c, p), |c.members + p.members|, c.caseId, p)
  }

  function PairsWith(c: Truth, ps: seq<Prediction>): seq<Pair> {
    if ps == [] then []
    else
      var n := |ps| - 1;
      PairsWith(c, ps[..n]) + (if Overlap(c, ps[n]) != 0 then [PairOf(c, ps[n])] else [])
  }

  function AllPairs(cases: seq<Truth>, ps: seq<Prediction>): seq<Pair> {
    if cases == [] then [] else AllPairs(cases[..|cases| - 1], ps) + PairsWith(cases[|cases| - 1], ps)
  }

  /** The order of the sort key: larger overlap, then smaller union, then ids. */
  predicate Before(a: Pair, b: Pair) {
    || a.overlap > b.overlap
    || (a.overlap == b.overlap && a.union < b.union)
    || (a.overlap == b.overlap && a.union == b.union && Less(a.caseId, b.caseId))
    || (a.overlap == b.overlap && a.union == b.union && a.caseId == b.caseId && Less(a.prediction.decisionId, b.prediction.decisionId))
  }

  function InsertPair(e: Pair, s: seq<Pair>): seq<Pair> {
    if s == [] || !Before(s[0], e) then [e] + s else [s[0]] + InsertPair(e, s[1..])
  }

  function SortPairs(s: seq<Pair>): seq<Pair> {
    if s == [] then [] else InsertPair(s[0], SortPairs(s[1..]))
  }

  /** Takes each pair, in order, whose case and prediction are both still free. */
  function Greedy(s: seq<Pair>, cases: set<string>, ids: set<string>): seq<Pair> {
    if s == [] then []
    else if s[0].caseId in cases || s[0].prediction.decisionId in ids then Greedy(s[1..], cases, ids)
    else [s[0]] + Greedy(s[1..], cases + {s[0].caseId}, ids + {s[0].prediction.decisionId})
  }

  function Assigned(cases: seq<Truth>, ps: seq<Prediction>): seq<Pair> {
    Greedy(SortPairs(AllPairs(cases, ps)), {}, {})
  }

  function CaseIds(s: seq<Pair>): set<string> {
    set a | a in s :: a.caseId
  }

  function DecisionIds(s: seq<Pair>): set<string> {
    set a | a in s :: a.prediction.decisionId
  }

  function Unmatched(ps: seq<Prediction>, ids: set<string>): seq<Prediction> {
    if ps == [] then [] else (if ps[0].decisionId in ids then [] else [ps[0]]) + Unmatched(ps[1..], ids)
  }

  method CandidatePairs(cases: seq<Truth>, ps: seq<Prediction>) returns (pairs: seq<Pair>)
    ensures pairs == AllPairs(cases, ps)
  {
    hide Overlap, PairOf;
    pairs := [];
    for i := 0 to |cases|
      invariant pairs == AllPairs(cases[..i], ps)
    {
      assert cases[..i + 1][..i] == cases[..i];
      ghost var before := pairs;
      for j := 0 to |ps|
        invariant pairs == before + PairsWith(cases[i], ps[..j])
      {
        assert ps[..j + 1][..j] == ps[..j];
        if Overlap(cases[i], ps[j]) != 0 {
          pairs := pairs + [PairOf(cases[i], ps[j])];
        }
      }
      assert ps[..|ps|] == ps;
    }
    assert cases[..|cases|] == cases;
  }

  method AssignPredictions(cases: seq<Truth>, ps: seq<Prediction>)
    returns (assignments: map<string, Prediction>, unmatched: seq<Prediction>)
    ensures forall a | a in Assigned(cases, ps) :: a.caseId in assignments && assignments[a.caseId] == a.prediction
    ensures assignments.Keys == CaseIds(Assigned(cases, ps))
    ensures unmatched == Unmatched(ps, DecisionIds(Assigned(cases, ps)))
  {
    hide AllPairs, SortPairs;
    var pairs := CandidatePairs(cases, ps);
    var sorted := SortPairs(pairs);
    var taken: set<string>, ids: set<string> := {}, {};
    assignments := map[];
    ghost var chosen: seq<Pair> := [];
    for i := 0 to |sorted|
      invariant Assigned(cases, ps) == chosen + Greedy(sorted[i..], taken, ids)
      invariant taken == assignments.Keys == CaseIds(chosen) && ids == DecisionIds(chosen)
      invariant forall a | a in chosen :: a.caseId in assignments && assignments[a.caseId] == a.prediction
    {
      var pair := sorted[i];
      assert sorted[i..][1..] == sorted[i + 1..];
      if pair.caseId !in taken && pair.prediction.decisionId !in ids {
        assert chosen + Greedy(sorted[i..], taken, ids)
            == chosen + [pair] + Greedy(sorted[i + 1..], taken + {pair.caseId}, ids + {pair.prediction.decisionId});
        assignments := assignments[pair.caseId := pair.prediction];
        taken, ids := taken + {pair.caseId}, ids + {pair.prediction.decisionId};
        chosen := chosen + [pair];
      }
    }
    assert Assigned(cases, ps) == chosen;
    unmatched := Unmatched(ps, ids);
  }

  // ---- what the order gives -----------------------------------------------------------------

  ghost predicate Descending(s: seq<Pair>) {
    forall i, j | 0 <= i < j < |s| :: s[i].overlap >= s[j].overlap
  }

  lemma {:induction false} InsertPairMembers(e: Pair, s: seq<Pair>)
    ensures forall x :: x in InsertPair(e, s) <==> x == e || x in s
  {
    hide Before;
    if s != [] {
      InsertPairMembers(e, s[1..]);
    }
  }

  lemma {:induction false} SortPairsMembers(s: seq<Pair>)
    ensures forall x :: x in SortPairs(s) <==> x in s
  {
    hide InsertPair;
    if s != [] {
      SortPairsMembers(s[1..]);
      InsertPairMembers(s[0], SortPairs(s[1..]));
    }
  }

  lemma {:induction false} InsertPairDescending(e: Pair, s: seq<Pair>)
    requires Descending(s)
    ensures Descending(InsertPair(e, s))
  {
    if s != [] && Before(s[0], e) {
      InsertPairDescending(e, s[1..]);
      InsertPairMembers(e, s[1..]);
      var rest := InsertPair(e, s[1..]);
      forall j | 0 <= j < |rest| ensures s[0].overlap >= rest[j].overlap {
        assert rest[j] in rest;
      }
    }
  }

  lemma {:induction false} SortedDescending(s: seq<Pair>)
    ensures Descending(SortPairs(s))
  {
    hide InsertPair;
    if s != [] {
      SortedDescending(s[1..]);
      InsertPairDescending(s[0], SortPairs(s[1..]));
    }
  }

  lemma {:induction false} PairsWithMembers(c: Truth, ps: seq<Prediction>, x: Pair)
    ensures x in PairsWith(c, ps) <==> exists p :: p in ps && Overlap(c, p) != 0 && x == PairOf(c, p)
  {
    hide Overlap, PairOf;
    if ps != [] {
      var n := |ps| - 1;
      PairsWithMembers(c, ps[..n], x);
      assert ps == ps[..n] + [ps[n]];
      assert forall p :: p in ps <==> p in ps[..n] || p == ps[n];
    }
  }

  lemma {:induction false} AllPairsMembers(cases: seq<Truth>, ps: seq<Prediction>, x: Pair)
    ensures x in AllPairs(cases, ps) <==> exists c, p :: c in cases && p in ps && Overlap(c, p) != 0 && x == PairOf(c, p)
  {
    hide Overlap, PairOf, PairsWith;
    if cases != [] {
      var n := |cases| - 1;
      AllPairsMembers(cases[..n], ps, x);
      PairsWithMembers(cases[n], ps, x);
      assert cases == cases[..n] + [cases[n]];
      assert forall c :: c in cases <==> c in cases[..n] || c == cases[n];
    }
  }

  // ---- one to one, maximal ------------------------------------------------------------------

  /** No case and no prediction occurs twice. */
  ghost predicate IsMatching(s: seq<Pair>) {
    forall i, j | 0 <= i < j < |s| :: s[i].caseId != s[j].caseId && s[i].prediction.decisionId != s[j].prediction.decisionId
  }

  lemma {:induction false} GreedyIsMatching(s: seq<Pair>, cases: set<string>, ids: set<string>)
    ensures IsMatching(Greedy(s, cases, ids))
    ensures forall a | a in Greedy(s, cases, ids) :: a in s && a.caseId !in cases && a.prediction.decisionId !in ids
  {
    if s != [] {
      if s[0].caseId in cases || s[0].prediction.decisionId in ids {
        GreedyIsMatching(s[1..], cases, ids);
      } else {
        var rest := Greedy(s[1..], cases + {s[0].caseId}, ids + {s[0].prediction.decisionId});
        GreedyIsMatching(s[1..], cases + {s[0].caseId}, ids + {s[0].prediction.decisionId});
        forall j | 0 <= j < |rest|
          ensures s[0].caseId != rest[j].caseId && s[0].prediction.decisionId != rest[j].prediction.decisionId
        {
          assert rest[j] in rest;
        }
      }
    }
  }

  /** Every pair is taken or blocked. */
  lemma {:induction false} GreedyIsMaximal(s: seq<Pair>, cases: set<string>, ids: set<string>, x: Pair)
    requires x in s
    ensures var chosen := Greedy(s, cases, ids);
      x.caseId in cases + CaseIds(chosen) || x.prediction.decisionId in ids + DecisionIds(chosen)
  {
    if s[0].caseId in cases || s[0].prediction.decisionId in ids {
      if x != s[0] {
        GreedyIsMaximal(s[1..], cases, ids, x);
      }
    } else {
      var cases', ids' := cases + {s[0].caseId}, ids + {s[0].prediction.decisionId};
      var rest := Greedy(s[1..], cases', ids');
      assert Greedy(s, cases, ids) == [s[0]] + rest;
      assert s[0] in Greedy(s, cases, ids);
      assert forall a | a in rest :: a in Greedy(s, cases, ids);
      if x != s[0] {
        GreedyIsMaximal(s[1..], cases', ids', x);
      }
    }
  }

  // ---- half of the best ---------------------------------------------------------------------

  function Weight(s: seq<Pair>): nat {
    if s == [] then 0 else s[0].overlap + Weight(s[1..])
  }

  /** What two pairs can compete for. */
  datatype Prize = CaseOf(caseId: string) | PredictionOf(decisionId: string)

  predicate Takes(a: Pair, prize: Prize) {
    match prize
    case CaseOf(caseId) => a.caseId == caseId
    case PredictionOf(id) => a.prediction.decisionId == id
  }

  function Without(s: seq<Pair>, prize: Prize): seq<Pair> {
    if s == [] then [] else (if Takes(s[0], prize) then [] else [s[0]]) + Without(s[1..], prize)
  }

  lemma {:induction false} WithoutMembers(s: seq<Pair>, prize: Prize)
    ensures forall a :: a in Without(s, prize) <==> a in s && !Takes(a, prize)
  {
    hide Takes;
    if s != [] {
      WithoutMembers(s[1..], prize);
      assert s == [s[0]] + s[1..];
    }
  }

  /** The head of a matching takes nothing that the others take. */
  lemma {:induction false} HeadIsApart(s: seq<Pair>)
    requires IsMatching(s) && s != []
    ensures IsMatching(s[1..])
    ensures forall a | a in s[1..] :: a.caseId != s[0].caseId && a.prediction.decisionId != s[0].prediction.decisionId
  {
    var rest := s[1..];
    assert forall i | 0 <= i < |rest| :: rest[i] == s[i + 1];
  }

  lemma {:induction false} WithoutIsMatching(s: seq<Pair>, prize: Prize)
    requires IsMatching(s)
    ensures IsMatching(Without(s, prize))
  {
    hide Takes;
    if s != [] {
      HeadIsApart(s);
      WithoutIsMatching(s[1..], prize);
      WithoutMembers(s[1..], prize);
      var rest := Without(s[1..], prize);
      forall j | 0 <= j < |rest|
        ensures rest[j].caseId != s[0].caseId && rest[j].prediction.decisionId != s[0].prediction.decisionId
      {
        assert rest[j] in rest;
      }
    }
  }

  lemma {:induction false} NothingTaken(s: seq<Pair>, prize: Prize)
    requires forall a | a in s :: !Takes(a, prize)
    ensures Without(s, prize) == s
  {
    hide Takes;
    if s != [] {
      assert s[0] in s;
      NothingTaken(s[1..], prize);
    }
  }

  /** At most one pair of a matching takes a given prize. */
  lemma {:induction false} WithoutCosts(s: seq<Pair>, prize: Prize, bound: nat)
    requires IsMatching(s) && forall a | a in s :: a.overlap <= bound
    ensures Weight(s) <= Weight(Without(s, prize)) + bound
  {
    if s != [] {
      assert s[0] in s;
      HeadIsApart(s);
      if Takes(s[0], prize) {
        NothingTaken(s[1..], prize);
        assert Without(s, prize) == s[1..];
      } else {
        WithoutCosts(s[1..], prize, bound);
        assert Without(s, prize)[1..] == Without(s[1..], prize);
      }
    }
  }

  /** Each pair the greedy pass takes can cost any other matching at most two pairs, neither heavier. */
  lemma {:induction false} GreedyIsHalfOfBest(s: seq<Pair>, cases: set<string>, ids: set<string>, other: seq<Pair>)
    requires Descending(s) && IsMatching(other)
    requires forall a | a in other :: a in s && a.caseId !in cases && a.prediction.decisionId !in ids
    ensures Weight(other) <= 2 * Weight(Greedy(s, cases, ids))
  {
    if other != [] {
      assert other[0] in other;
      var g, rest := s[0], s[1..];
      if g.caseId in cases || g.prediction.decisionId in ids {
        GreedyIsHalfOfBest(rest, cases, ids, other);
      } else {
        var left := OthersLeft(g, other);
        OthersRemain(s, other);
        hide OthersLeft, IsMatching, Descending;
        GreedyIsHalfOfBest(rest, cases + {g.caseId}, ids + {g.prediction.decisionId}, left);
        assert Greedy(s, cases, ids)[1..] == Greedy(rest, cases + {g.caseId}, ids + {g.prediction.decisionId});
      }
    }
  }

  /** Past the head, what does not compete with it is still a matching among the rest. */
  lemma {:induction false} OthersRemain(s: seq<Pair>, other: seq<Pair>)
    requires s != [] && Descending(s) && IsMatching(other) && forall a | a in other :: a in s
    ensures var left := OthersLeft(s[0], other);
      && Descending(s[1..]) && IsMatching(left) && Weight(other) <= Weight(left) + 2 * s[0].overlap
      && forall a | a in left :: a in s[1..] && a in other && a.caseId != s[0].caseId && a.prediction.decisionId != s[0].prediction.decisionId
  {
    forall a | a in other ensures a.overlap <= s[0].overlap {
      var j :| 0 <= j < |s| && s[j] == a;
    }
    hide IsMatching, OthersLeft;
    OthersLeftCost(s[0], other);
    assert s == [s[0]] + s[1..];
  }

  /** The pairs of another matching that do not compete with `g`. */
  function OthersLeft(g: Pair, other: seq<Pair>): seq<Pair> {
    Without(Without(other, CaseOf(g.caseId)), PredictionOf(g.prediction.decisionId))
  }

  lemma {:induction false} OthersLeftCost(g: Pair, other: seq<Pair>)
    requires IsMatching(other) && forall a | a in other :: a.overlap <= g.overlap
    ensures Weight(other) <= Weight(OthersLeft(g, other)) + 2 * g.overlap
    ensures IsMatching(OthersLeft(g, other))
    ensures forall a | a in OthersLeft(g, other) ::
      a in other && a.caseId != g.caseId && a.prediction.decisionId != g.prediction.decisionId
  {
    var c, p := CaseOf(g.caseId), PredictionOf(g.prediction.decisionId);
    var fewer := Without(other, c);
    WithoutMembers(other, c);
    WithoutMembers(fewer, p);
    WithoutIsMatching(other, c);
    WithoutIsMatching(fewer, p);
    hide IsMatching;
    WithoutCosts(other, c, g.overlap);
    WithoutCosts(fewer, p, g.overlap);
    hide Without;
  }

  // ---- the assignment -----------------------------------------------------------------------

  /** Is every pair of `m` one of the candidate pairs? */
  ghost predicate Candidates(m: seq<Pair>, cases: seq<Truth>, ps: seq<Prediction>) {
    forall a | a in m :: a in AllPairs(cases, ps)
  }

  /** The assignment is a one-to-one matching of overlapping pairs that no further pair can join, and its
      total overlap is at least half of any matching's. */
  lemma {:induction false} AssignmentIsGood(cases: seq<Truth>, ps: seq<Prediction>, other: seq<Pair>)
    requires IsMatching(other) && Candidates(other, cases, ps)
    ensures var chosen := Assigned(cases, ps);
      && IsMatching(chosen) && Candidates(chosen, cases, ps)
      && (forall a | a in AllPairs(cases, ps) :: a.caseId in CaseIds(chosen) || a.prediction.decisionId in DecisionIds(chosen))
      && Weight(other) <= 2 * Weight(chosen)
  {
    var pairs := AllPairs(cases, ps);
    var sorted := SortPairs(pairs);
    hide AllPairs, SortPairs, Greedy;
    SortedDescending(pairs);
    SortPairsMembers(pairs);
    GreedyIsMatching(sorted, {}, {});
    GreedyIsHalfOfBest(sorted, {}, {}, other);
    forall a | a in pairs ensures a.caseId in CaseIds(Greedy(sorted, {}, {})) || a.prediction.decisionId in DecisionIds(Greedy(sorted, {}, {})) {
      GreedyIsMaximal(sorted, {}, {}, a);
    }
  }

  ghost predicate PairwiseApart(cases: seq<Truth>, ps: seq<Prediction>) {
    && (forall c, d | c in cases && d in cases && c != d :: c.members !! d.members && c.caseId != d.caseId)
    && (forall p, q | p in ps && q in ps && p != q :: p.members !! q.members && p.decisionId != q.decisionId)
  }

  lemma OverlapMeansSharing(c: Truth, p: Prediction)
    ensures Overlap(c, p) != 0 <==> c.members * p.members != {}
  {
  }

  /** When cases are disjoint and predictions are disjoint, an exactly predicted case is always assigned
      its exact prediction. */
  lemma {:induction false} ExactPredictionIsAssigned(cases: seq<Truth>, ps: seq<Prediction>, c: Truth, p: Prediction)
    requires PairwiseApart(cases, ps) && c in cases && p in ps && p.members == c.members != {}
    ensures PairOf(c, p) in Assigned(cases, ps)
  {
    var x := PairOf(c, p);
    OverlapMeansSharing(c, p);
    AllPairsMembers(cases, ps, x);
    AssignmentIsGood(cases, ps, []);
    hide AllPairs, Assigned, Overlap;
    var chosen := Assigned(cases, ps);
    assert x in AllPairs(cases, ps);
    var a :| a in chosen && (a.caseId == x.caseId || a.prediction.decisionId == x.prediction.decisionId);
    AllPairsMembers(cases, ps, a);
    var d, q :| d in cases && q in ps && Overlap(d, q) != 0 && a == PairOf(d, q);
    OverlapMeansSharing(d, q);
    assert d == c && q == p by {
      var shared :| shared in d.members && shared in q.members;
      assert a.caseId == d.caseId && a.prediction == q;
    }
  }
}
