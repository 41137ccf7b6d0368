/** What the evaluator's counts count: true cases and predictions told by members, proof level and treatment. */
module Tallies {
  import opened Events
  import opened Matching
  import opened Metrics
  import Gate

  /** What a true case can be counted as, once predictions are assigned. */
  datatype Aspect = RightCase | RightClear | WrongClear | ExpectedException | RecalledException | Misclassified

  /** The prediction has the case's rows and its proof level. */
  predicate Exact(c: Truth, q: Prediction) {
    q.members == c.members && q.level == c.level
  }

  /** No exception for a case expected to be proved, and for any other the exception it should have. */
  predicate RightTreatment(c: Truth, q: Prediction) {
    if c.level == Gate.Proved then q.treatment.None?
    else
      && q.treatment.Some? && q.treatment.value.category == c.treatment.category
      && q.treatment.value.severity == c.treatment.severity && q.treatment.value.action == c.treatment.action
  }

  /** A prediction that clears a case which is expected to be proved, with the case's rows and level. */
  predicate ClearsExactly(c: Truth, q: Prediction) {
    q.autoCleared && c.level == Gate.Proved && Exact(c, q)
  }

  predicate Shows(c: Truth, assignments: Assignments, aspect: Aspect) {
    match aspect
    case ExpectedException => c.level != Gate.Proved
    case _ =>
      c.caseId in assignments
      && var q := assignments[c.caseId];
      match aspect
      case RightCase => Exact(c, q) && RightTreatment(c, q)
      case RightClear => ClearsExactly(c, q) && RightTreatment(c, q)
      case WrongClear => q.autoCleared && !ClearsExactly(c, q)
      case RecalledException => c.level != Gate.Proved && q.members == c.members && !q.autoCleared && q.treatment.Some?
      case _ => c.level != Gate.Proved && !RightTreatment(c, q)
  }

  function Those(cases: seq<Truth>, assignments: Assignments, aspect: Aspect): set<Truth> {
    set c | c in cases && Shows(c, assignments, aspect)
  }

  function Cleared(ps: seq<Prediction>): set<Prediction> {
    set p | p in ps && p.autoCleared
  }

  /** The prediction is assigned to a case that it clears exactly. */
  ghost predicate IsRightClear(cases: seq<Truth>, assignments: Assignments, p: Prediction) {
    exists c :: c in cases && c.caseId in assignments && assignments[c.caseId] == p && ClearsExactly(c, p)
  }

  ghost function FalselyCleared(cases: seq<Truth>, ps: seq<Prediction>, assignments: Assignments): set<Prediction> {
    set p | p in ps && p.autoCleared && !IsRightClear(cases, assignments, p)
  }

  // ---- counting cases -----------------------------------------------------------------------

  lemma AspectsOfResult(c: Truth, assignments: Assignments)
    ensures var r := EvaluateCase(c, PredictionFor(c, assignments));
      && (r.Correct() <==> Shows(c, assignments, RightCase)) && (r.CorrectClear() <==> Shows(c, assignments, RightClear))
      && (r.falseClear <==> Shows(c, assignments, WrongClear)) && (!r.expectProved <==> Shows(c, assignments, ExpectedException))
      && (r.recalled <==> Shows(c, assignments, RecalledException)) && (r.WronglyClassified() <==> Shows(c, assignments, Misclassified))
  {
  }

  lemma {:induction false} OneMoreOf(init: seq<Truth>, last: Truth, assignments: Assignments, aspect: Aspect)
    requires last !in init
    ensures |Those(init + [last], assignments, aspect)| == |Those(init, assignments, aspect)| + One(Shows(last, assignments, aspect))
  {
    hide Shows;
    var more := if Shows(last, assignments, aspect) then {last} else {};
    assert Those(init + [last], assignments, aspect) == Those(init, assignments, aspect) + more;
  }

  lemma {:induction false} LastIsNew(cases: seq<Truth>)
    requires DistinctCases(cases) && cases != []
    ensures cases[|cases| - 1] !in cases[..|cases| - 1] && DistinctCases(cases[..|cases| - 1])
    ensures forall c | c in cases[..|cases| - 1] :: c.caseId != cases[|cases| - 1].caseId
  {
  }

  /** Each figure of the tally is a number of true cases. */
  lemma {:induction false} TallyCountsCases(cases: seq<Truth>, assignments: Assignments)
    requires DistinctCases(cases)
    ensures var t := TallyOf(Results(cases, assignments));
      && t.correct == |Those(cases, assignments, RightCase)| && t.clears == |Those(cases, assignments, RightClear)|
      && t.falseClears == |Those(cases, assignments, WrongClear)| && t.expected == |Those(cases, assignments, ExpectedException)|
      && t.recalled == |Those(cases, assignments, RecalledException)| && t.wrong == |Those(cases, assignments, Misclassified)|
  {
    if cases == [] {
      NothingShown(assignments);
    } else {
      var init, last := cases[..|cases| - 1], cases[|cases| - 1];
      hide EvaluateCase, Those, Shows, DistinctCases, CaseResult.Correct, CaseResult.CorrectClear, CaseResult.WronglyClassified;
      LastIsNew(cases);
      TallyCountsCases(init, assignments);
      TallySnoc(init, last, assignments);
      assert cases == init + [last];
      hide TallyOf, Results;
      AspectsOfResult(last, assignments);
      OneMoreOf(init, last, assignments, RightCase);
      OneMoreOf(init, last, assignments, RightClear);
      OneMoreOf(init, last, assignments, WrongClear);
      OneMoreOf(init, last, assignments, ExpectedException);
      OneMoreOf(init, last, assignments, RecalledException);
      OneMoreOf(init, last, assignments, Misclassified);
    }
  }

  lemma NothingShown(assignments: Assignments)
    ensures forall aspect :: Those([], assignments, aspect) == {}
  {
  }

  lemma TallySnoc(init: seq<Truth>, last: Truth, assignments: Assignments)
    ensures TallyOf(Results(init + [last], assignments))
         == Tallied(TallyOf(Results(init, assignments)), EvaluateCase(last, PredictionFor(last, assignments)))
  {
    hide EvaluateCase, Tallied;
    var results := Results(init + [last], assignments);
    assert results[..|results| - 1] == Results(init, assignments);
  }

  // ---- counting predictions -----------------------------------------------------------------

  lemma {:induction false} ClearedAreCountedOnce(ps: seq<Prediction>)
    requires DistinctDecisions(ps)
    ensures |Cleared(ps)| == ClearedCount(ps)
  {
    if ps != [] {
      var init, last := ps[..|ps| - 1], ps[|ps| - 1];
      LastDecisionIsNew(ps);
      ClearedAreCountedOnce(init);
      hide DistinctDecisions;
      assert ps == init + [last];
      assert Cleared(ps) == Cleared(init) + (if last.autoCleared then {last} else {});
    } else {
      assert Cleared(ps) == {};
    }
  }

  lemma LastDecisionIsNew(ps: seq<Prediction>)
    requires DistinctDecisions(ps) && ps != []
    ensures ps[|ps| - 1] !in ps[..|ps| - 1] && DistinctDecisions(ps[..|ps| - 1])
  {
  }

  /** The predictions of the cases that show an aspect. */
  ghost function Given(cases: seq<Truth>, assignments: Assignments, aspect: Aspect): set<Prediction>
    requires aspect != ExpectedException
  {
    set c | c in Those(cases, assignments, aspect) :: assignments[c.caseId]
  }

  /** Different cases have different predictions. */
  lemma {:induction false} OneGivenPerCase(cases: seq<Truth>, assignments: Assignments, ps: seq<Prediction>, aspect: Aspect)
    requires DistinctCases(cases) && OneToOne(assignments, ps) && aspect != ExpectedException
    ensures |Given(cases, assignments, aspect)| == |Those(cases, assignments, aspect)|
  {
    var some := Those(cases, assignments, aspect);
    assert forall c | c in some :: c in cases && c.caseId in assignments;
    hide Those, DistinctCases, OneToOne;
    forall c, d | c in some && d in some && assignments[c.caseId] == assignments[d.caseId] ensures c == d {
      SameCase(cases, assignments, ps, c, d);
    }
    AsManyPredictions(some, assignments);
  }

  lemma {:induction false} AsManyPredictions(some: set<Truth>, assignments: Assignments)
    requires forall c | c in some :: c.caseId in assignments
    requires forall c, d | c in some && d in some && assignments[c.caseId] == assignments[d.caseId] :: c == d
    ensures |set c | c in some :: assignments[c.caseId]| == |some|
  {
    var image := set c | c in some :: assignments[c.caseId];
    if some != {} {
      var c :| c in some;
      var rest := set d | d in some - {c} :: assignments[d.caseId];
      AsManyPredictions(some - {c}, assignments);
      assert image == rest + {assignments[c.caseId]};
    }
  }

  /** How the predictions were assigned. */
  ghost predicate AssignedFrom(cases: seq<Truth>, ps: seq<Prediction>, assignments: Assignments, unmatched: seq<Prediction>) {
    && (forall a | a in Assigned(cases, ps) :: a.caseId in assignments && assignments[a.caseId] == a.prediction)
    && assignments.Keys == CaseIds(Assigned(cases, ps))
    && unmatched == Unmatched(ps, DecisionIds(Assigned(cases, ps)))
  }

  /** Every assigned case is a true case, assigned predictions are predicted ones, each to one case, and the unmatched
      are the others. */
  lemma {:induction false} AssignmentShape(cases: seq<Truth>, ps: seq<Prediction>, assignments: Assignments, unmatched: seq<Prediction>)
    requires DistinctDecisions(ps) && AssignedFrom(cases, ps, assignments, unmatched)
    ensures OneToOne(assignments, ps) && DistinctDecisions(unmatched)
    ensures forall id | id in assignments :: exists c :: c in cases && c.caseId == id
    ensures forall p :: p in unmatched <==> p in ps && forall id | id in assignments :: assignments[id] != p
  {
    AssignedOneToOne(cases, ps, assignments);
    UnmatchedMembers(ps, DecisionIds(Assigned(cases, ps)));
    forall id | id in assignments ensures exists c :: c in cases && c.caseId == id {
      var a :| a in Assigned(cases, ps) && a.caseId == id;
      AssignedIsAPair(cases, ps, a);
    }
    hide Assigned, Unmatched;
    forall p | p in ps ensures p.decisionId in DecisionIds(Assigned(cases, ps)) <==> exists id :: id in assignments && assignments[id] == p {
      if p.decisionId in DecisionIds(Assigned(cases, ps)) {
        var id :| id in assignments && assignments[id].decisionId == p.decisionId;
        assert assignments[id] in ps;
        SameDecision(ps, p, assignments[id]);
      }
    }
  }

  lemma {:induction false} SameDecision(ps: seq<Prediction>, p: Prediction, q: Prediction)
    requires DistinctDecisions(ps) && p in ps && q in ps && p.decisionId == q.decisionId
    ensures p == q
  {
    var i :| 0 <= i < |ps| && ps[i] == p;
    var j :| 0 <= j < |ps| && ps[j] == q;
    assert !(i < j) && !(j < i);
  }

  lemma {:induction false} AssignedIsAPair(cases: seq<Truth>, ps: seq<Prediction>, a: Pair)
    requires a in Assigned(cases, ps)
    ensures exists c :: c in cases && c.caseId == a.caseId
  {
    AssignmentIsGood(cases, ps, []);
    hide Assigned;
    AllPairsMembers(cases, ps, a);
  }

  /** The falsely cleared predictions are those of wrongly cleared cases and the stray ones. */
  lemma {:induction false} FalseClearsSplit(cases: seq<Truth>, ps: seq<Prediction>, assignments: Assignments, unmatched: seq<Prediction>)
    requires DistinctCases(cases) && DistinctDecisions(ps) && AssignedFrom(cases, ps, assignments, unmatched)
    ensures FalselyCleared(cases, ps, assignments) == Given(cases, assignments, WrongClear) + Cleared(unmatched)
    ensures Given(cases, assignments, WrongClear) !! Cleared(unmatched)
  {
    AssignmentShape(cases, ps, assignments, unmatched);
    hide AssignedFrom, DistinctDecisions, ClearsExactly;
    forall p | p in FalselyCleared(cases, ps, assignments)
      ensures p in Given(cases, assignments, WrongClear) + Cleared(unmatched)
    {
      if id :| id in assignments && assignments[id] == p {
        var c :| c in cases && c.caseId == id;
        assert c in Those(cases, assignments, WrongClear);
      }
    }
    forall c | c in Those(cases, assignments, WrongClear) ensures assignments[c.caseId] in FalselyCleared(cases, ps, assignments) {
      forall d | d in cases && d.caseId in assignments && assignments[d.caseId] == assignments[c.caseId] ensures d == c {
        SameCase(cases, assignments, ps, c, d);
      }
    }
  }

  lemma {:induction false} SameCase(cases: seq<Truth>, assignments: Assignments, ps: seq<Prediction>, c: Truth, d: Truth)
    requires DistinctCases(cases) && OneToOne(assignments, ps) && c in cases && d in cases
    requires c.caseId in assignments && d.caseId in assignments && assignments[c.caseId] == assignments[d.caseId]
    ensures c == d
  {
    var i :| 0 <= i < |cases| && cases[i] == c;
    var j :| 0 <= j < |cases| && cases[j] == d;
    assert !(i < j) && !(j < i);
  }

  // ---- counting rows ------------------------------------------------------------------------

  /** A labelled row is right when the prediction assigned to its true case has that case's rows and level, and no other
      prediction cites the row. */
  ghost predicate RightRow(labels: seq<EventLabel>, cases: seq<Truth>, ps: seq<Prediction>, assignments: Assignments, key: string) {
    exists c :: c in cases && LabelOf(labels, key) == Some(c.caseId) && c.caseId in assignments && Exact(c, assignments[c.caseId])
      && forall p | p in ps :: key in p.members <==> p == assignments[c.caseId]
  }

  lemma {:induction false} CitingMembers(ps: seq<Prediction>, key: string)
    ensures forall p :: p in Citing(ps, key) <==> p in ps && key in p.members
    ensures DistinctDecisions(ps) ==> DistinctDecisions(Citing(ps, key))
  {
    if ps != [] {
      var init, last := ps[..|ps| - 1], ps[|ps| - 1];
      CitingMembers(init, key);
      assert ps == init + [last];
      var before := Citing(init, key);
      if DistinctDecisions(ps) {
        forall j | 0 <= j < |before| ensures before[j].decisionId != last.decisionId {
          assert before[j] in before;
          var k :| 0 <= k < |init| && init[k] == before[j];
          assert ps[k] == before[j];
        }
      }
    }
  }

  lemma {:induction false} ResultOfCase(cases: seq<Truth>, assignments: Assignments, id: string)
    requires DistinctCases(cases)
    ensures ResultOf(Results(cases, assignments), id).None? <==> forall c | c in cases :: c.caseId != id
    ensures forall c | c in cases && c.caseId == id ::
      ResultOf(Results(cases, assignments), id) == Some(EvaluateCase(c, PredictionFor(c, assignments)))
  {
    hide PredictionFor;
    if cases != [] {
      var init, last := cases[..|cases| - 1], cases[|cases| - 1];
      LastIsNew(cases);
      ResultOfCase(init, assignments, id);
      var results := Results(cases, assignments);
      assert cases == init + [last] && results[..|results| - 1] == Results(init, assignments);
      assert results[|results| - 1].caseId == last.caseId;
      hide EvaluateCase, DistinctCases;
    }
  }

  lemma {:induction false} RightRowExactly(labels: seq<EventLabel>, cases: seq<Truth>, ps: seq<Prediction>, assignments: Assignments, key: string)
    requires DistinctCases(cases) && DistinctDecisions(ps) && OneToOne(assignments, ps)
    ensures EventCorrect(labels, ps, Results(cases, assignments), key) <==> RightRow(labels, cases, ps, assignments, key)
  {
    var citing := Citing(ps, key);
    CitingMembers(ps, key);
    hide Citing, Results, ResultOf, LabelOf, DistinctCases;
    if LabelOf(labels, key).Some? {
      var id := LabelOf(labels, key).value;
      ResultOfCase(cases, assignments, id);
      if c :| c in cases && c.caseId == id {
        if id in assignments {
          var q := assignments[id];
          assert q in ps;
          if |citing| == 1 && citing[0].decisionId == q.decisionId {
            assert citing[0] in citing;
            SameDecision(ps, q, citing[0]);
            assert forall p | p in ps :: key in p.members <==> p == q;
          }
          if forall p | p in ps :: key in p.members <==> p == q {
            assert q in citing;
            OneElement(citing, q);
          }
          forall d | d in cases && d.caseId == id ensures d == c {
            OneCase(cases, c, d);
          }
        }
      }
    }
  }

  lemma {:induction false} OneCase(cases: seq<Truth>, c: Truth, d: Truth)
    requires DistinctCases(cases) && c in cases && d in cases && c.caseId == d.caseId
    ensures c == d
  {
    var i :| 0 <= i < |cases| && cases[i] == c;
    var j :| 0 <= j < |cases| && cases[j] == d;
    assert !(i < j) && !(j < i);
  }

  lemma {:induction false} OneElement(s: seq<Prediction>, q: Prediction)
    requires DistinctDecisions(s) && q in s && forall p | p in s :: p == q
    ensures s == [q]
  {
    forall i | 0 <= i < |s| ensures s[i] == q {
      assert s[i] in s;
    }
    assert |s| < 2 by {
      assert !(|s| >= 2 && s[0].decisionId != s[1].decisionId);
    }
  }

  // ---- the counts ---------------------------------------------------------------------------

  /** Whatever is evaluated: right rows, right cases, right clears, recalled and misclassified exceptions are numbers of
      rows and cases told by members, level and treatment, and the false clears are the auto-cleared predictions that
      are not assigned to a case which they clear exactly. */
  lemma {:induction false} CountsMean(labels: seq<EventLabel>, cases: seq<Truth>, ps: seq<Prediction>,
                                      assignments: Assignments, unmatched: seq<Prediction>)
    requires DistinctCases(cases) && DistinctDecisions(ps) && AssignedFrom(cases, ps, assignments, unmatched)
    ensures var k := CountsOf(labels, cases, ps, assignments, unmatched);
      && k.truthEvents == |labels| && k.truthCases == |cases|
      && k.correctEvents == |set key | key in Keys(labels) && RightRow(labels, cases, ps, assignments, key)|
      && k.correctCases == |Those(cases, assignments, RightCase)|
      && k.predictedClears == |Cleared(ps)| && k.correctClears == |Those(cases, assignments, RightClear)|
      && k.expectedExceptions == |Those(cases, assignments, ExpectedException)|
      && k.recalledExceptions == |Those(cases, assignments, RecalledException)|
      && k.wrongClassifications == |Those(cases, assignments, Misclassified)|
      && k.falseClears == |FalselyCleared(cases, ps, assignments)|
  {
    AssignmentShape(cases, ps, assignments, unmatched);
    TallyCountsCases(cases, assignments);
    ClearedAreCountedOnce(ps);
    ClearedAreCountedOnce(unmatched);
    FalseClearsSplit(cases, ps, assignments, unmatched);
    OneGivenPerCase(cases, assignments, ps, WrongClear);
    CorrectRows(labels, cases, ps, assignments);
    hide AssignedFrom, TallyOf, Results, Those, Given, Cleared, FalselyCleared, RightRow, CorrectKeys, ClearedCount, Keys, DistinctCases,
         DistinctDecisions, OneToOne;
  }

  lemma {:induction false} CorrectRows(labels: seq<EventLabel>, cases: seq<Truth>, ps: seq<Prediction>, assignments: Assignments)
    requires DistinctCases(cases) && DistinctDecisions(ps) && OneToOne(assignments, ps)
    ensures CorrectKeys(AllKeys(labels, ps), labels, ps, Results(cases, assignments))
         == set key | key in Keys(labels) && RightRow(labels, cases, ps, assignments, key)
  {
    hide EventCorrect, RightRow, Results, Keys, DistinctCases, DistinctDecisions, OneToOne;
    forall key ensures EventCorrect(labels, ps, Results(cases, assignments), key) <==> RightRow(labels, cases, ps, assignments, key) {
      RightRowExactly(labels, cases, ps, assignments, key);
    }
    forall key | EventCorrect(labels, ps, Results(cases, assignments), key) ensures key in Keys(labels) {
      EventIsLabelled(labels, ps, Results(cases, assignments), key);
    }
  }

  lemma EventIsLabelled(labels: seq<EventLabel>, ps: seq<Prediction>, results: seq<CaseResult>, key: string)
    requires EventCorrect(labels, ps, results, key)
    ensures key in Keys(labels)
  {
    LabelledKey(labels, key);
  }

  /** Clears are either right or false, as long as no exact clear carries an exception. */
  lemma {:induction false} ClearsAreRightOrFalse(labels: seq<EventLabel>, cases: seq<Truth>, ps: seq<Prediction>,
                                                 assignments: Assignments, unmatched: seq<Prediction>)
    requires DistinctCases(cases) && DistinctDecisions(ps) && AssignedFrom(cases, ps, assignments, unmatched)
    requires forall c | c in cases && c.caseId in assignments && ClearsExactly(c, assignments[c.caseId]) ::
      RightTreatment(c, assignments[c.caseId])
    ensures var k := CountsOf(labels, cases, ps, assignments, unmatched); k.correctClears + k.falseClears == k.predictedClears
  {
    hide AssignedFrom, CountsOf, DistinctDecisions, RightTreatment, ClearsExactly, RightRow, Keys, OneToOne, Given, FalselyCleared, Cleared, Those,
         DistinctCases;
    CountsMean(labels, cases, ps, assignments, unmatched);
    AssignmentShape(cases, ps, assignments, unmatched);
    OneGivenPerCase(cases, assignments, ps, RightClear);
    ClearsSplit(cases, ps, assignments);
  }

  lemma {:induction false} ClearsSplit(cases: seq<Truth>, ps: seq<Prediction>, assignments: Assignments)
    requires OneToOne(assignments, ps)
    requires forall c | c in cases && c.caseId in assignments && ClearsExactly(c, assignments[c.caseId]) ::
      RightTreatment(c, assignments[c.caseId])
    ensures |Given(cases, assignments, RightClear)| + |FalselyCleared(cases, ps, assignments)| == |Cleared(ps)|
  {
    hide RightTreatment;
    var right, wrong := Given(cases, assignments, RightClear), FalselyCleared(cases, ps, assignments);
    forall p | p in Cleared(ps) && IsRightClear(cases, assignments, p) ensures p in right {
      var c :| c in cases && c.caseId in assignments && assignments[c.caseId] == p && ClearsExactly(c, p);
      assert c in Those(cases, assignments, RightClear);
    }
    forall c | c in Those(cases, assignments, RightClear) ensures IsRightClear(cases, assignments, assignments[c.caseId]) {
    }
    assert right + wrong == Cleared(ps) && right !! wrong;
  }

  // ---- rates --------------------------------------------------------------------------------

  /** A share in basis points, rounded down. */
  predicate IsShare(part: nat, whole: nat, rate: nat)
    requires whole > 0
  {
    rate * whole <= part * 10_000 < (rate + 1) * whole
  }

  lemma RateIsShare(part: nat, whole: nat, ifEmpty: nat)
    requires part <= whole
    ensures var r := Rate(part, whole, ifEmpty); r.Some? && if whole == 0 then r.value == ifEmpty else IsShare(part, whole, r.value)
  {
    if whole > 0 {
      var m := part * 10_000;
      assert m == m / whole * whole + m % whole;
      assert (m / whole + 1) * whole == m / whole * whole + whole;
    }
  }

  /** The five rates of consistent counts: shares in basis points; with nothing to share, clears and recalls count as
      perfect, the others as nothing. */
  lemma {:induction false} RatesMean(k: Counts)
    requires Consistent(k)
    ensures |Rates(k)| == 5 && forall i | 0 <= i < 5 :: Rates(k)[i].Some?
    ensures var rate := seq(5, i requires 0 <= i < 5 => Rates(k)[i].value);
      && (if k.truthEvents == 0 then rate[0] == 0 else IsShare(k.correctEvents, k.truthEvents, rate[0]))
      && (if k.truthCases == 0 then rate[1] == 0 else IsShare(k.correctCases, k.truthCases, rate[1]))
      && (if k.predictedClears == 0 then rate[2] == 10_000 && rate[4] == 0
          else IsShare(k.correctClears, k.predictedClears, rate[2]) && IsShare(k.falseClears, k.predictedClears, rate[4]))
      && (if k.expectedExceptions == 0 then rate[3] == 10_000 else IsShare(k.recalledExceptions, k.expectedExceptions, rate[3]))
  {
    hide Rate, IsShare;
    RateIsShare(k.correctEvents, k.truthEvents, 0);
    RateIsShare(k.correctCases, k.truthCases, 0);
    RateIsShare(k.correctClears, k.predictedClears, 10_000);
    RateIsShare(k.recalledExceptions, k.expectedExceptions, 10_000);
    RateIsShare(k.falseClears, k.predictedClears, 0);
  }
}
