/** Counting an evaluation, and the rates computed from the counts. */
module Metrics {
  import opened Events
  import opened Matching
  import Gate

  type Assignments = map<string, Prediction>

  // ---- one case -----------------------------------------------------------------------------

  datatype CaseResult = CaseResult(
    caseId: string,
    decisionId: Option<string>,
    expectProved: bool,
    groupCorrect: bool,
    proofCorrect: bool,
    classified: bool,
    cleared: bool,
    falseClear: bool,
    recalled: bool
  ) {
    predicate Correct() { groupCorrect && proofCorrect && classified }

    predicate CorrectClear() { Correct() && expectProved && cleared }

    predicate WronglyClassified() { !expectProved && decisionId.Some? && !classified }
  }

  predicate SameTreatment(t: Treatment, u: Treatment) {
    t.category == u.category && t.severity == u.severity && t.action == u.action
  }

  function EvaluateCase(c: Truth, p: Option<Prediction>): CaseResult {
    var expectProved := c.level == Gate.Proved;
    if p.None? then CaseResult(c.caseId, None, expectProved, false, false, false, false, false, false)
    else
      var q := p.value;
      var group, proof := q.members == c.members, q.level == c.level;
      var correctClear := q.autoCleared && expectProved && group && proof;
      CaseResult(
        c.caseId, Some(q.decisionId), expectProved, group, proof,
        if expectProved then q.treatment.None? else q.treatment.Some? && SameTreatment(q.treatment.value, c.treatment),
        q.autoCleared, q.autoCleared && !correctClear,
        !expectProved && group && !q.autoCleared && q.treatment.Some?)
  }

  function PredictionFor(c: Truth, assignments: Assignments): Option<Prediction> {
    if c.caseId in assignments then Some(assignments[c.caseId]) else None
  }

  function Results(cases: seq<Truth>, assignments: Assignments): seq<CaseResult> {
    seq(|cases|, i requires 0 <= i < |cases| => EvaluateCase(cases[i], PredictionFor(cases[i], assignments)))
  }

  // ---- events -------------------------------------------------------------------------------

  datatype EventLabel = EventLabel(key: string, caseId: string)

  function Keys(labels: seq<EventLabel>): set<string> {
    set l | l in labels :: l.key
  }

  /** `{event.key: event}`: the last label of a key wins. */
  function LabelOf(labels: seq<EventLabel>, key: string): Option<string> {
    if labels == [] then None
    else if labels[|labels| - 1].key == key then Some(labels[|labels| - 1].caseId)
    else LabelOf(labels[..|labels| - 1], key)
  }

  function Citing(ps: seq<Prediction>, key: string): seq<Prediction> {
    if ps == [] then [] else Citing(ps[..|ps| - 1], key) + (if key in ps[|ps| - 1].members then [ps[|ps| - 1]] else [])
  }

  /** The result of the case with the given id: the last one in `{result.expected_case_id: result}`. */
  function ResultOf(results: seq<CaseResult>, caseId: string): Option<CaseResult> {
    if results == [] then None
    else if results[|results| - 1].caseId == caseId then Some(results[|results| - 1])
    else ResultOf(results[..|results| - 1], caseId)
  }

  /** A row is right when one prediction cites it, its true case was grouped right by that prediction,
      and the proof level agrees. */
  predicate EventCorrect(labels: seq<EventLabel>, ps: seq<Prediction>, results: seq<CaseResult>, key: string) {
    && LabelOf(labels, key).Some? && |Citing(ps, key)| == 1
    && var result := ResultOf(results, LabelOf(labels, key).value);
    && result.Some? && result.value.groupCorrect && result.value.proofCorrect
    && result.value.decisionId == Some(Citing(ps, key)[0].decisionId)
  }

  function AllKeys(labels: seq<EventLabel>, ps: seq<Prediction>): set<string> {
    Keys(labels) + set p, key | p in ps && key in p.members :: key
  }

  function CorrectKeys(keys: set<string>, labels: seq<EventLabel>, ps: seq<Prediction>, results: seq<CaseResult>): set<string> {
    set key | key in keys && EventCorrect(labels, ps, results, key)
  }

  // ---- counts -------------------------------------------------------------------------------

  datatype Counts = Counts(
    truthEvents: nat, correctEvents: nat,
    truthCases: nat, correctCases: nat,
    predictedClears: nat, correctClears: nat,
    expectedExceptions: nat, recalledExceptions: nat,
    falseClears: nat, wrongClassifications: nat
  )

  function One(b: bool): nat { if b then 1 else 0 }

  function ClearedCount(ps: seq<Prediction>): nat {
    if ps == [] then 0 else ClearedCount(ps[..|ps| - 1]) + One(ps[|ps| - 1].autoCleared)
  }

  datatype Tally = Tally(correct: nat, clears: nat, expected: nat, recalled: nat, falseClears: nat, wrong: nat)

  function TallyOf(results: seq<CaseResult>): Tally {
    if results == [] then Tally(0, 0, 0, 0, 0, 0)
    else Tallied(TallyOf(results[..|results| - 1]), results[|results| - 1])
  }

  function Tallied(t: Tally, r: CaseResult): Tally {
    Tally(t.correct + One(r.Correct()), t.clears + One(r.CorrectClear()), t.expected + One(!r.expectProved),
          t.recalled + One(r.recalled), t.falseClears + One(r.falseClear), t.wrong + One(r.WronglyClassified()))
  }

  function CountsOf(labels: seq<EventLabel>, cases: seq<Truth>, ps: seq<Prediction>, assignments: Assignments, unmatched: seq<Prediction>): Counts {
    var results := Results(cases, assignments);
    var t := TallyOf(results);
    Counts(|labels|, |CorrectKeys(AllKeys(labels, ps), labels, ps, results)|, |cases|, t.correct, ClearedCount(ps), t.clears,
           t.expected, t.recalled, t.falseClears + ClearedCount(unmatched), t.wrong)
  }

  method EvaluatePredictions(labels: seq<EventLabel>, cases: seq<Truth>, ps: seq<Prediction>)
    returns (counts: Counts, results: seq<CaseResult>, assignments: Assignments, unmatched: seq<Prediction>)
    ensures results == Results(cases, assignments) && counts == CountsOf(labels, cases, ps, assignments, unmatched)
    ensures forall a | a in Assigned(cases, ps) :: a.caseId in assignments && assignments[a.caseId] == a.prediction
    ensures assignments.Keys == CaseIds(Assigned(cases, ps))
    ensures unmatched == Unmatched(ps, DecisionIds(Assigned(cases, ps)))
  {
    hide Assigned, EvaluateCase, EventCorrect, CaseResult.Correct, CaseResult.CorrectClear, CaseResult.WronglyClassified, One,
         CaseIds, DecisionIds, Unmatched;
    assignments, unmatched := AssignPredictions(cases, ps);
    var tally;
    results, tally := EvaluateCases(cases, assignments);
    var right := CountEvents(labels, ps, results);
    var cleared := CountCleared(ps);
    var stray := CountCleared(unmatched);
    counts := Counts(|labels|, right, |cases|, tally.correct, cleared, tally.clears, tally.expected, tally.recalled,
                     tally.falseClears + stray, tally.wrong);
  }

  method EvaluateCases(cases: seq<Truth>, assignments: Assignments) returns (results: seq<CaseResult>, tally: Tally)
    ensures results == Results(cases, assignments) && tally == TallyOf(results)
  {
    hide EvaluateCase, PredictionFor, Tallied;
    results, tally := [], Tally(0, 0, 0, 0, 0, 0);
    for i := 0 to |cases|
      invariant |results| == i && tally == TallyOf(results)
      invariant forall j | 0 <= j < i :: results[j] == EvaluateCase(cases[j], PredictionFor(cases[j], assignments))
    {
      var r := EvaluateCase(cases[i], PredictionFor(cases[i], assignments));
      tally := Tallied(tally, r);
      assert (results + [r])[..|results|] == results;
      results := results + [r];
    }
  }

  method CountCleared(ps: seq<Prediction>) returns (n: nat)
    ensures n == ClearedCount(ps)
  {
    n := 0;
    for i := 0 to |ps|
      invariant n == ClearedCount(ps[..i])
    {
      assert ps[..i + 1][..i] == ps[..i];
      n := n + One(ps[i].autoCleared);
    }
    assert ps[..|ps|] == ps;
  }

  method CountEvents(labels: seq<EventLabel>, ps: seq<Prediction>, results: seq<CaseResult>) returns (n: nat)
    ensures n == |CorrectKeys(AllKeys(labels, ps), labels, ps, results)|
  {
    hide EventCorrect;
    var keys := AllKeys(labels, ps);
    var left := keys;
    n := 0;
    assert CorrectKeys(keys - left, labels, ps, results) == {};
    while left != {}
      invariant left <= keys && n == |CorrectKeys(keys - left, labels, ps, results)|
      decreases left
    {
      var key :| key in left;
      var done := keys - left;
      left := left - {key};
      assert keys - left == done + {key};
      if EventCorrect(labels, ps, results, key) {
        assert CorrectKeys(done + {key}, labels, ps, results) == CorrectKeys(done, labels, ps, results) + {key};
        n := n + 1;
      } else {
        assert CorrectKeys(done + {key}, labels, ps, results) == CorrectKeys(done, labels, ps, results);
      }
    }
    assert keys - left == keys;
  }

  // ---- consistency --------------------------------------------------------------------------

  predicate Consistent(k: Counts) {
    && k.correctEvents <= k.truthEvents && k.correctCases <= k.truthCases
    && k.correctClears + k.falseClears <= k.predictedClears
    && k.recalledExceptions <= k.expectedExceptions && k.wrongClassifications <= k.expectedExceptions <= k.truthCases
  }

  lemma {:induction false} FewerKeysThanLabels(labels: seq<EventLabel>)
    ensures |Keys(labels)| <= |labels|
  {
    if labels != [] {
      var init := labels[..|labels| - 1];
      FewerKeysThanLabels(init);
      assert labels == init + [labels[|labels| - 1]];
      assert Keys(labels) == Keys(init) + {labels[|labels| - 1].key};
    } else {
      assert Keys(labels) == {};
    }
  }

  lemma {:induction false} LabelledKey(labels: seq<EventLabel>, key: string)
    ensures LabelOf(labels, key).Some? ==> key in Keys(labels)
  {
    if labels != [] {
      LabelledKey(labels[..|labels| - 1], key);
    }
  }

  lemma {:induction false} SmallerSet(s: set<string>, t: set<string>)
    requires s <= t
    ensures |s| <= |t|
  {
    assert t == s + (t - s);
  }

  lemma {:induction false} EventsAreConsistent(labels: seq<EventLabel>, ps: seq<Prediction>, results: seq<CaseResult>)
    ensures |CorrectKeys(AllKeys(labels, ps), labels, ps, results)| <= |labels|
  {
    var correct := CorrectKeys(AllKeys(labels, ps), labels, ps, results);
    forall key | key in correct ensures key in Keys(labels) {
      LabelledKey(labels, key);
    }
    FewerKeysThanLabels(labels);
    SmallerSet(correct, Keys(labels));
  }

  ghost predicate DistinctCases(cases: seq<Truth>) {
    forall i, j | 0 <= i < j < |cases| :: cases[i].caseId != cases[j].caseId
  }

  ghost predicate DistinctDecisions(ps: seq<Prediction>) {
    forall i, j | 0 <= i < j < |ps| :: ps[i].decisionId != ps[j].decisionId
  }

  /** No two cases are assigned the same prediction, and every assigned one was predicted. */
  ghost predicate OneToOne(assignments: Assignments, ps: seq<Prediction>) {
    && (forall c | c in assignments :: assignments[c] in ps)
    && (forall c, d | c in assignments && d in assignments && c != d :: assignments[c].decisionId != assignments[d].decisionId)
  }

  function ClearedIds(ps: seq<Prediction>): set<string> {
    set p | p in ps && p.autoCleared :: p.decisionId
  }

  /** The auto-cleared predictions assigned to the given cases. */
  function ClearedFor(cases: seq<Truth>, assignments: Assignments): set<string> {
    set c | c in cases && c.caseId in assignments && assignments[c.caseId].autoCleared :: assignments[c.caseId].decisionId
  }

  lemma {:induction false} ClearedAreCounted(ps: seq<Prediction>)
    requires DistinctDecisions(ps)
    ensures |ClearedIds(ps)| == ClearedCount(ps)
  {
    if ps != [] {
      var init, last := ps[..|ps| - 1], ps[|ps| - 1];
      ClearedAreCounted(init);
      assert ps == init + [last];
      assert last.decisionId !in ClearedIds(init);
      assert ClearedIds(ps) == ClearedIds(init) + (if last.autoCleared then {last.decisionId} else {});
    } else {
      assert ClearedIds(ps) == {};
    }
  }

  /** Each assigned case accounts for at most one auto-clear, right or wrong, and for its own prediction. */
  lemma {:induction false} ClearsPerCase(cases: seq<Truth>, assignments: Assignments, ps: seq<Prediction>)
    requires DistinctCases(cases) && OneToOne(assignments, ps)
    ensures var t := TallyOf(Results(cases, assignments));
      && t.clears + t.falseClears <= |ClearedFor(cases, assignments)|
      && t.correct <= |cases| && t.recalled <= t.expected <= |cases| && t.wrong <= t.expected
  {
    if cases != [] {
      var init, last := cases[..|cases| - 1], cases[|cases| - 1];
      ClearsPerCase(init, assignments, ps);
      assert cases == init + [last];
      var results := Results(cases, assignments);
      assert results[..|results| - 1] == Results(init, assignments);
      OneMoreCase(init, last, assignments, ps);
    }
  }

  lemma {:induction false} OneMoreCase(init: seq<Truth>, last: Truth, assignments: Assignments, ps: seq<Prediction>)
    requires DistinctCases(init + [last]) && OneToOne(assignments, ps)
    ensures var r := EvaluateCase(last, PredictionFor(last, assignments));
      One(r.CorrectClear()) + One(r.falseClear) + |ClearedFor(init, assignments)| <= |ClearedFor(init + [last], assignments)|
  {
    var more := if last.caseId in assignments && assignments[last.caseId].autoCleared then {assignments[last.caseId].decisionId} else {};
    forall c | c in init ensures c.caseId != last.caseId {
      var i :| 0 <= i < |init| && init[i] == c;
      assert (init + [last])[i] == c && (init + [last])[|init|] == last;
    }
    hide DistinctCases;
    assert ClearedFor(init + [last], assignments) == ClearedFor(init, assignments) + more by {
      assert forall c :: c in init + [last] <==> c in init || c == last;
    }
    assert more !! ClearedFor(init, assignments);
    hide ClearedFor, OneToOne;
    ClearedOnce(last, assignments);
    assert |ClearedFor(init, assignments) + more| == |ClearedFor(init, assignments)| + |more|;
  }

  lemma ClearedOnce(c: Truth, assignments: Assignments)
    ensures var r := EvaluateCase(c, PredictionFor(c, assignments));
      One(r.CorrectClear()) + One(r.falseClear) <= One(c.caseId in assignments && assignments[c.caseId].autoCleared)
  {
  }

  lemma {:induction false} UnmatchedMembers(ps: seq<Prediction>, ids: set<string>)
    ensures forall p :: p in Unmatched(ps, ids) <==> p in ps && p.decisionId !in ids
    ensures DistinctDecisions(ps) ==> DistinctDecisions(Unmatched(ps, ids))
  {
    if ps != [] {
      UnmatchedMembers(ps[1..], ids);
      assert ps == [ps[0]] + ps[1..];
      var rest := Unmatched(ps[1..], ids);
      if DistinctDecisions(ps) {
        assert DistinctDecisions(ps[1..]) by {
          assert forall i | 0 <= i < |ps[1..]| :: ps[1..][i] == ps[i + 1];
        }
        forall j | 0 <= j < |rest| ensures rest[j].decisionId != ps[0].decisionId {
          assert rest[j] in rest;
          var k :| 0 <= k < |ps[1..]| && ps[1..][k] == rest[j];
          assert ps[k + 1] == rest[j];
        }
      }
    }
  }

  lemma {:induction false} ClearsAreConsistent(cases: seq<Truth>, ps: seq<Prediction>, assignments: Assignments, unmatched: seq<Prediction>)
    requires DistinctCases(cases) && DistinctDecisions(ps) && OneToOne(assignments, ps)
    requires unmatched == Unmatched(ps, set c | c in assignments :: assignments[c].decisionId)
    ensures var t := TallyOf(Results(cases, assignments)); t.clears + t.falseClears + ClearedCount(unmatched) <= ClearedCount(ps)
  {
    var ids := set c | c in assignments :: assignments[c].decisionId;
    ClearsPerCase(cases, assignments, ps);
    UnmatchedMembers(ps, ids);
    ClearedAreCounted(ps);
    ClearedAreCounted(unmatched);
    hide DistinctCases, DistinctDecisions, Unmatched, TallyOf, ClearedCount;
    var matched, stray := ClearedFor(cases, assignments), ClearedIds(unmatched);
    assert matched <= ids && matched <= ClearedIds(ps);
    assert stray !! ids && stray <= ClearedIds(ps);
    SmallerSet(matched + stray, ClearedIds(ps));
  }

  lemma {:induction false} AssignedOneToOne(cases: seq<Truth>, ps: seq<Prediction>, assignments: Assignments)
    requires forall a | a in Assigned(cases, ps) :: a.caseId in assignments && assignments[a.caseId] == a.prediction
    requires assignments.Keys == CaseIds(Assigned(cases, ps))
    ensures OneToOne(assignments, ps)
    ensures (set c | c in assignments :: assignments[c].decisionId) == DecisionIds(Assigned(cases, ps))
  {
    AssignmentIsGood(cases, ps, []);
    var chosen := Assigned(cases, ps);
    hide Assigned;
    forall a | a in chosen ensures a.prediction in ps {
      AllPairsMembers(cases, ps, a);
    }
    hide AllPairs, Candidates;
    MatchingIsOneToOne(chosen, ps, assignments);
  }

  lemma {:induction false} MatchingIsOneToOne(chosen: seq<Pair>, ps: seq<Prediction>, assignments: Assignments)
    requires IsMatching(chosen) && forall a | a in chosen :: a.prediction in ps
    requires forall a | a in chosen :: a.caseId in assignments && assignments[a.caseId] == a.prediction
    requires assignments.Keys == CaseIds(chosen)
    ensures OneToOne(assignments, ps)
    ensures (set c | c in assignments :: assignments[c].decisionId) == DecisionIds(chosen)
  {
    forall c | c in assignments ensures exists i :: 0 <= i < |chosen| && chosen[i].caseId == c && assignments[c] == chosen[i].prediction {
      assert c in CaseIds(chosen);
      var a :| a in chosen && a.caseId == c;
      var i :| 0 <= i < |chosen| && chosen[i] == a;
    }
    forall c, d | c in assignments && d in assignments && c != d ensures assignments[c].decisionId != assignments[d].decisionId {
      var i :| 0 <= i < |chosen| && chosen[i].caseId == c && assignments[c] == chosen[i].prediction;
      var j :| 0 <= j < |chosen| && chosen[j].caseId == d && assignments[d] == chosen[j].prediction;
      assert i < j || j < i;
    }
    forall a | a in chosen ensures a.prediction.decisionId in (set c | c in assignments :: assignments[c].decisionId) {
      assert a.caseId in assignments;
    }
  }

  /** For any truth and any predictions with distinct ids, every count stays within its denominator, and
      correct clears and false clears together never exceed the predicted clears. */
  lemma {:induction false} CountsAreConsistent(labels: seq<EventLabel>, cases: seq<Truth>, ps: seq<Prediction>,
                                               assignments: Assignments, unmatched: seq<Prediction>)
    requires DistinctCases(cases) && DistinctDecisions(ps)
    requires forall a | a in Assigned(cases, ps) :: a.caseId in assignments && assignments[a.caseId] == a.prediction
    requires assignments.Keys == CaseIds(Assigned(cases, ps))
    requires unmatched == Unmatched(ps, DecisionIds(Assigned(cases, ps)))
    ensures Consistent(CountsOf(labels, cases, ps, assignments, unmatched))
  {
    AssignedOneToOne(cases, ps, assignments);
    hide Assigned, Unmatched, TallyOf, ClearedCount, CorrectKeys, Results;
    EventsAreConsistent(labels, ps, Results(cases, assignments));
    ClearsPerCase(cases, assignments, ps);
    ClearsAreConsistent(cases, ps, assignments, unmatched);
  }

  // ---- rates --------------------------------------------------------------------------------

  function Add(k: Counts, l: Counts): Counts {
    Counts(k.truthEvents + l.truthEvents, k.correctEvents + l.correctEvents, k.truthCases + l.truthCases,
           k.correctCases + l.correctCases, k.predictedClears + l.predictedClears, k.correctClears + l.correctClears,
           k.expectedExceptions + l.expectedExceptions, k.recalledExceptions + l.recalledExceptions,
           k.falseClears + l.falseClears, k.wrongClassifications + l.wrongClassifications)
  }

  /** Basis points, or None where the original raises. */
  function Rate(numerator: nat, denominator: nat, ifEmpty: nat): Option<nat> {
    if numerator > denominator then None
    else Some(if denominator == 0 then ifEmpty else numerator * 10_000 / denominator)
  }

  function Rates(k: Counts): seq<Option<nat>> {
    [ Rate(k.correctEvents, k.truthEvents, 0), Rate(k.correctCases, k.truthCases, 0),
      Rate(k.correctClears, k.predictedClears, 10_000), Rate(k.recalledExceptions, k.expectedExceptions, 10_000),
      Rate(k.falseClears, k.predictedClears, 0) ]
  }

  lemma ProductGrows(a: nat, b: nat, d: nat)
    requires a < b && d > 0
    ensures a * d < b * d
  {
    assert b * d == a * d + (b - a) * d;
  }

  lemma QuotientInRange(n: nat, d: nat)
    requires n <= d && d > 0
    ensures 0 <= n * 10_000 / d <= 10_000
  {
    var m := n * 10_000;
    BoundedQuotient(m, d, 10_000);
  }

  lemma BoundedQuotient(m: nat, d: nat, bound: nat)
    requires d > 0 && m <= bound * d
    ensures 0 <= m / d <= bound
  {
    var q := m / d;
    assert m == q * d + m % d;
    if q > bound {
      ProductGrows(bound, q, d);
    }
  }

  /** Consistent counts stay consistent when seeds are added up, and none of their rates raises or leaves
      the range of basis points. */
  lemma {:induction false} RatesAreInRange(seeds: seq<Counts>)
    requires forall k | k in seeds :: Consistent(k)
    ensures Consistent(SumOf(seeds))
    ensures forall i | 0 <= i < 5 :: Rates(SumOf(seeds))[i].Some? && Rates(SumOf(seeds))[i].value <= 10_000
  {
    SumIsConsistent(seeds);
    hide SumOf;
    var k := SumOf(seeds);
    RateInRange(k.correctEvents, k.truthEvents, 0);
    RateInRange(k.correctCases, k.truthCases, 0);
    RateInRange(k.correctClears, k.predictedClears, 10_000);
    RateInRange(k.recalledExceptions, k.expectedExceptions, 10_000);
    RateInRange(k.falseClears, k.predictedClears, 0);
    hide Rate;
  }

  lemma RateInRange(n: nat, d: nat, ifEmpty: nat)
    requires n <= d && ifEmpty <= 10_000
    ensures Rate(n, d, ifEmpty).Some? && Rate(n, d, ifEmpty).value <= 10_000
  {
    if d > 0 {
      QuotientInRange(n, d);
    }
  }

  function SumOf(seeds: seq<Counts>): Counts {
    if seeds == [] then Counts(0, 0, 0, 0, 0, 0, 0, 0, 0, 0) else Add(SumOf(seeds[..|seeds| - 1]), seeds[|seeds| - 1])
  }

  lemma {:induction false} SumIsConsistent(seeds: seq<Counts>)
    requires forall k | k in seeds :: Consistent(k)
    ensures Consistent(SumOf(seeds))
  {
    if seeds != [] {
      SumIsConsistent(seeds[..|seeds| - 1]);
      assert seeds[|seeds| - 1] in seeds;
    }
  }
}
