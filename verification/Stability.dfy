/** Why a pair of case and prediction that overlap is not assigned: an earlier pair took one of them. */
module Stability {
  import opened Events
  import opened TextOrder
  import opened Matching

  /** The pair of a case and a prediction. */
  function Paired(c: Truth, p: Prediction): Pair {
    Pair(|c.members * p.members|, |c.members + p.members|, c.caseId, p)
  }

  /** Larger overlap first, then smaller union, then case id, then decision id. */
  predicate NoLater(a: Pair, b: Pair) {
    if a.overlap != b.overlap then a.overlap > b.overlap
    else if a.union != b.union then a.union < b.union
    else if a.caseId != b.caseId then Less(a.caseId, b.caseId)
    else a.prediction.decisionId == b.prediction.decisionId || Less(a.prediction.decisionId, b.prediction.decisionId)
  }

  lemma NoLaterExactly(a: Pair, b: Pair)
    ensures NoLater(a, b) <==> !Before(b, a)
  {
    Trichotomy(a.caseId, b.caseId);
    Trichotomy(a.prediction.decisionId, b.prediction.decisionId);
    Irreflexive(a.caseId);
    Irreflexive(a.prediction.decisionId);
    if Less(a.caseId, b.caseId) && Less(b.caseId, a.caseId) {
      Transitive(a.caseId, b.caseId, a.caseId);
    }
    if Less(a.prediction.decisionId, b.prediction.decisionId) && Less(b.prediction.decisionId, a.prediction.decisionId) {
      Transitive(a.prediction.decisionId, b.prediction.decisionId, a.prediction.decisionId);
    }
  }

  lemma NoLaterTransitive(a: Pair, b: Pair, c: Pair)
    requires NoLater(a, b) && NoLater(b, c)
    ensures NoLater(a, c)
  {
    if Less(a.caseId, b.caseId) && Less(b.caseId, c.caseId) {
      Transitive(a.caseId, b.caseId, c.caseId);
      Irreflexive(a.caseId);
    }
    if Less(a.prediction.decisionId, b.prediction.decisionId) && Less(b.prediction.decisionId, c.prediction.decisionId) {
      Transitive(a.prediction.decisionId, b.prediction.decisionId, c.prediction.decisionId);
    }
  }

  ghost predicate Sorted(s: seq<Pair>) {
    forall i, j | 0 <= i < j < |s| :: NoLater(s[i], s[j])
  }

  lemma {:induction false} InsertedSorted(e: Pair, s: seq<Pair>)
    requires Sorted(s)
    ensures Sorted(InsertPair(e, s))
  {
    hide Before, NoLater;
    if s != [] {
      NoLaterExactly(e, s[0]);
      if Before(s[0], e) {
        InsertedSorted(e, s[1..]);
        InsertPairMembers(e, s[1..]);
        var rest := InsertPair(e, s[1..]);
        NoLaterExactly(s[0], e);
        EarlierIsNoLater(s[0], e);
        forall j | 0 <= j < |rest| ensures NoLater(s[0], rest[j]) {
          assert rest[j] in rest;
        }
      } else {
        forall j | 0 <= j < |s| ensures NoLater(e, s[j]) {
          if j > 0 {
            NoLaterTransitive(e, s[0], s[j]);
          }
        }
      }
    }
  }

  lemma EarlierIsNoLater(a: Pair, b: Pair)
    requires Before(a, b)
    ensures NoLater(a, b)
  {
    Irreflexive(a.caseId);
  }

  lemma {:induction false} SortPairsSorts(s: seq<Pair>)
    ensures Sorted(SortPairs(s))
  {
    hide InsertPair, NoLater;
    if s != [] {
      SortPairsSorts(s[1..]);
      InsertedSorted(s[0], SortPairs(s[1..]));
    }
  }

  predicate Shares(a: Pair, b: Pair) {
    a.caseId == b.caseId || a.prediction.decisionId == b.prediction.decisionId
  }

  /** A pair in the list is kept out by what was taken before the list, or by a pair that was taken no later than it. */
  lemma {:induction false} KeptOutBy(s: seq<Pair>, cases: set<string>, ids: set<string>, k: nat)
    requires k < |s| && s[k].caseId !in cases && s[k].prediction.decisionId !in ids
    ensures exists i :: 0 <= i <= k && s[i] in Greedy(s, cases, ids) && Shares(s[i], s[k])
  {
    if s[0].caseId in cases || s[0].prediction.decisionId in ids {
      KeptOutBy(s[1..], cases, ids, k - 1);
      var i :| 0 <= i <= k - 1 && s[1..][i] in Greedy(s[1..], cases, ids) && Shares(s[1..][i], s[1..][k - 1]);
      assert s[i + 1] == s[1..][i];
    } else {
      var cases', ids' := cases + {s[0].caseId}, ids + {s[0].prediction.decisionId};
      var chosen := Greedy(s, cases, ids);
      assert chosen == [s[0]] + Greedy(s[1..], cases', ids') && chosen[0] == s[0];
      if Shares(s[0], s[k]) {
        assert s[0] in chosen;
      } else {
        KeptOutBy(s[1..], cases', ids', k - 1);
        var i :| 0 <= i <= k - 1 && s[1..][i] in Greedy(s[1..], cases', ids') && Shares(s[1..][i], s[1..][k - 1]);
        assert s[i + 1] == s[1..][i] && s[i + 1] in chosen;
      }
    }
  }

  ghost predicate Takes(cases: seq<Truth>, ps: seq<Prediction>, d: Truth, q: Prediction) {
    d in cases && q in ps && Paired(d, q) in Assigned(cases, ps)
  }

  /** Whenever a case and a prediction overlap, one of the two is assigned in a pair that comes no later than they do:
      with itself, if nothing better takes either. */
  lemma {:induction false} AssignmentIsStable(cases: seq<Truth>, ps: seq<Prediction>, c: Truth, p: Prediction)
    requires c in cases && p in ps && c.members * p.members != {}
    ensures exists d, q :: Takes(cases, ps, d, q) && Shares(Paired(d, q), Paired(c, p)) && NoLater(Paired(d, q), Paired(c, p))
  {
    var s := SortPairs(AllPairs(cases, ps));
    hide AllPairs, SortPairs, Greedy, NoLater, Overlap, PairOf, Paired, Shares;
    PairedIs(c, p);
    AllPairsMembers(cases, ps, Paired(c, p));
    SortPairsMembers(AllPairs(cases, ps));
    SortPairsSorts(AllPairs(cases, ps));
    var k :| 0 <= k < |s| && s[k] == Paired(c, p);
    PairedKeys(c, p);
    KeptOutBy(s, {}, {}, k);
    var i :| 0 <= i <= k && s[i] in Greedy(s, {}, {}) && Shares(s[i], s[k]);
    SameIsNoLater(s[k]);
    assert s[i] in s;
    AllPairsMembers(cases, ps, s[i]);
    var d, q :| d in cases && q in ps && Overlap(d, q) != 0 && s[i] == PairOf(d, q);
    PairedIs(d, q);
    assert Takes(cases, ps, d, q);
  }

  lemma PairedIs(c: Truth, p: Prediction)
    ensures PairOf(c, p) == Paired(c, p) && (Overlap(c, p) != 0 <==> c.members * p.members != {})
  {
  }

  lemma PairedKeys(c: Truth, p: Prediction)
    ensures Paired(c, p).caseId == c.caseId && Paired(c, p).prediction == p
  {
  }

  lemma SameIsNoLater(a: Pair)
    ensures NoLater(a, a)
  {
  }
}
