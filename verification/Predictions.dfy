/** The evaluator's predictions, built from a stored run and assigned to the true cases. */
module Predictions {
  import opened Events
  import opened TextOrder
  import opened Selection
  import opened Context
  import opened Proposals
  import opened SettlementRule
  import opened Gate
  import opened Pipeline
  import opened Partition
  import opened Totality
  import opened Ledger
  import opened Rerun
  import opened Join
  import opened Matching
  import RunProtocol

  /** The text of a digest. */
  type Naming = StableId -> string

  /** Namespaced by source, so equal record ids of different systems do not collide. */
  function SourceKey(e: Event): string {
    SourceName(e.source) + ":" + e.recordId
  }

  function KeysOf(rows: seq<Event>): set<string> {
    set e | e in rows :: SourceKey(e)
  }

  /** `{event.event_id: event}` filled in order, looked up. */
  function EventById(events: seq<Event>, id: string): Option<Event> {
    if events == [] then None
    else if events[|events| - 1].eventId == id then Some(events[|events| - 1])
    else EventById(events[..|events| - 1], id)
  }

  predicate AllStored(events: seq<Event>, ids: seq<string>) {
    forall id | id in ids :: EventById(events, id).Some?
  }

  function MemberKeys(events: seq<Event>, ids: seq<string>): set<string> {
    set id | id in ids && EventById(events, id).Some? :: SourceKey(EventById(events, id).value)
  }

  function PredictionOf(events: seq<Event>, exceptions: seq<ExceptionCase>, d: Decision, name: Naming): Prediction {
    var x := JoinedTo(exceptions, TextSet(d.eventIds));
    Prediction(name(d.decisionId), MemberKeys(events, d.eventIds), d.level, d.allowsAutoClear,
               if x.Some? then Some(x.value.treatment) else None)
  }

  function AllPredictions(events: seq<Event>, exceptions: seq<ExceptionCase>, ds: seq<Decision>, name: Naming): seq<Prediction> {
    if ds == [] then []
    else AllPredictions(events, exceptions, ds[..|ds| - 1], name) + [PredictionOf(events, exceptions, ds[|ds| - 1], name)]
  }

  function InsertPrediction(p: Prediction, s: seq<Prediction>): seq<Prediction> {
    if s == [] || !Less(s[0].decisionId, p.decisionId) then [p] + s else [s[0]] + InsertPrediction(p, s[1..])
  }

  /** `sorted(predictions, key=lambda item: item.decision_id)`. */
  function SortPredictions(s: seq<Prediction>): seq<Prediction> {
    if s == [] then [] else InsertPrediction(s[0], SortPredictions(s[1..]))
  }

  /** Indexes events by id and exceptions by members, then turns every decision into a prediction; refuses a
      decision that cites an event which is not stored. */
  method BuildPredictions(events: seq<Event>, decisions: seq<Decision>, exceptions: seq<ExceptionCase>, name: Naming)
    returns (r: Option<seq<Prediction>>)
    ensures r == if forall d | d in decisions :: AllStored(events, d.eventIds)
                 then Some(SortPredictions(AllPredictions(events, exceptions, decisions, name))) else None
  {
    hide SourceKey;
    var byId: map<string, Event> := map[];
    for i := 0 to |events|
      invariant forall id :: EventById(events[..i], id) == if id in byId then Some(byId[id]) else None
    {
      assert events[..i + 1][..i] == events[..i];
      byId := byId[events[i].eventId := events[i]];
    }
    assert events[..|events|] == events;
    var byMembers: map<set<string>, ExceptionCase> := map[];
    for i := 0 to |exceptions|
      invariant forall members ::
        JoinedTo(exceptions[..i], members) == if members in byMembers then Some(byMembers[members]) else None
    {
      assert exceptions[..i + 1][..i] == exceptions[..i];
      byMembers := byMembers[LinkIds(exceptions[i].links) := exceptions[i]];
    }
    assert exceptions[..|exceptions|] == exceptions;
    var predictions := [];
    for k := 0 to |decisions|
      invariant predictions == AllPredictions(events, exceptions, decisions[..k], name)
      invariant forall d | d in decisions[..k] :: AllStored(events, d.eventIds)
    {
      assert decisions[..k + 1] == decisions[..k] + [decisions[k]];
      var d := decisions[k];
      if exists id | id in d.eventIds :: id !in byId {
        return None;
      }
      var keys := set id | id in d.eventIds :: SourceKey(byId[id]);
      assert keys == MemberKeys(events, d.eventIds);
      var members := TextSet(d.eventIds);
      var treatment := if members in byMembers then Some(byMembers[members].treatment) else None;
      predictions := predictions + [Prediction(name(d.decisionId), keys, d.level, d.allowsAutoClear, treatment)];
    }
    assert decisions[..|decisions|] == decisions;
    r := Some(SortPredictions(predictions));
  }

  lemma {:induction false} InsertPredictionMembers(p: Prediction, s: seq<Prediction>)
    ensures forall x :: x in InsertPrediction(p, s) <==> x == p || x in s
  {
    if s != [] {
      InsertPredictionMembers(p, s[1..]);
    }
  }

  lemma {:induction false} SortPredictionsMembers(s: seq<Prediction>)
    ensures forall x :: x in SortPredictions(s) <==> x in s
  {
    hide InsertPrediction;
    if s != [] {
      SortPredictionsMembers(s[1..]);
      InsertPredictionMembers(s[0], SortPredictions(s[1..]));
    }
  }

  lemma {:induction false} PredictionAt(events: seq<Event>, exceptions: seq<ExceptionCase>, ds: seq<Decision>, name: Naming, k: nat)
    requires k < |ds|
    ensures |AllPredictions(events, exceptions, ds, name)| == |ds|
    ensures AllPredictions(events, exceptions, ds, name)[k] == PredictionOf(events, exceptions, ds[k], name)
  {
    hide PredictionOf;
    var n := |ds| - 1;
    PredictionsLength(events, exceptions, ds[..n], name);
    if k < n {
      PredictionAt(events, exceptions, ds[..n], name, k);
    }
  }

  lemma {:induction false} PredictionsLength(events: seq<Event>, exceptions: seq<ExceptionCase>, ds: seq<Decision>, name: Naming)
    ensures |AllPredictions(events, exceptions, ds, name)| == |ds|
  {
    hide PredictionOf;
    if ds != [] {
      PredictionsLength(events, exceptions, ds[..|ds| - 1], name);
    }
  }

  // ---- the predictions of a run -------------------------------------------------------------

  lemma {:induction false} FindsEvent(events: seq<Event>, e: Event)
    requires UniqueIds(events) && e in events
    ensures EventById(events, e.eventId) == Some(e)
  {
    var init, last := events[..|events| - 1], events[|events| - 1];
    assert events == init + [last];
    if e != last {
      var i :| 0 <= i < |events| && events[i] == e;
      FindsEvent(init, e);
    }
  }

  /** The member keys of a decision are the source keys of its rows. */
  lemma {:induction false} KeysOfMembers(events: seq<Event>, rows: seq<Event>)
    requires UniqueIds(events) && forall e | e in rows :: e in events
    ensures AllStored(events, Ids(rows)) && MemberKeys(events, Ids(rows)) == KeysOf(rows)
  {
    hide SourceKey;
    var ids := Ids(rows);
    forall e | e in rows ensures EventById(events, e.eventId) == Some(e) {
      FindsEvent(events, e);
    }
    forall id | id in ids ensures exists e :: e in rows && e.eventId == id {
      var i :| 0 <= i < |ids| && ids[i] == id;
      assert rows[i] in rows;
    }
    forall key ensures key in MemberKeys(events, ids) <==> key in KeysOf(rows) {
      if key in KeysOf(rows) {
        var e :| e in rows && SourceKey(e) == key;
        var i :| 0 <= i < |rows| && rows[i] == e;
        assert ids[i] == e.eventId;
      }
    }
  }

  /** The prediction made of the `k`-th decision of a run. */
  ghost function RunPrediction(b: Batch, cases: seq<Facts>, similarity: Similarity, name: Naming, k: nat): Prediction
    requires Presentable(b, cases) && k < |ProposalsFrom(b, cases, similarity)| && k < |MemberLists(b, cases)|
  {
    var ps := ProposalsFrom(b, cases, similarity);
    var d, x := Decide(b.runId, ps[k], b.policy), FiledFor(b, ps, k);
    Prediction(name(d.decisionId), KeysOf(MemberLists(b, cases)[k]), d.level, d.allowsAutoClear,
               if x.Some? then Some(x.value.treatment) else None)
  }

  lemma {:induction false} RowsOfProposal(b: Batch, refs: seq<string>, cases: seq<Facts>, similarity: Similarity, k: nat)
    requires WellFormed(b) && Known(b, refs) && cases == Cases(b, refs) && Presentable(b, cases)
    requires k < |ProposalsFrom(b, cases, similarity)|
    ensures var ps := ProposalsFrom(b, cases, similarity);
      && |ps| == |MemberLists(b, cases)| && Decide(b.runId, ps[k], b.policy).eventIds == Ids(MemberLists(b, cases)[k])
      && MemberLists(b, cases)[k] != [] && forall e | e in MemberLists(b, cases)[k] :: e in b.events
  {
    hide Cases, Known, MemberLists, ProposalsFrom, Presentable, WellFormed, Ordered, Level;
    ProposalsCiteTheirMembers(b, cases, similarity, k);
    ListsAreSound(b, refs, cases, k);
  }

  /** The run's events, in whatever order they are stored. */
  ghost predicate Stores(events: seq<Event>, b: Batch) {
    UniqueIds(events) && forall e | e in b.events :: e in events
  }

  /** A stored run never cites a missing event; however its exceptions are ordered, each decision is predicted
      with the keys of its own rows and the treatment of its own exception. */
  lemma {:induction false} PredictionsOfRun(b: Batch, refs: seq<string>, cases: seq<Facts>, similarity: Similarity, events: seq<Event>,
                                            stored: seq<ExceptionCase>, name: Naming, k: nat)
    requires Stores(events, b)
    requires WellFormed(b) && Known(b, refs) && Ascending(refs) && cases == Cases(b, refs) && Presentable(b, cases)
    requires k < |ProposalsFrom(b, cases, similarity)|
    requires var ps := ProposalsFrom(b, cases, similarity);
      forall x :: x in stored <==> x in Exceptions(b, ps)
    ensures var d := Decide(b.runId, ProposalsFrom(b, cases, similarity)[k], b.policy);
      && AllStored(events, d.eventIds) && k < |MemberLists(b, cases)|
      && PredictionOf(events, stored, d, name) == RunPrediction(b, cases, similarity, name, k)
  {
    var ps := ProposalsFrom(b, cases, similarity);
    hide Cases, Known, Ascending, WellFormed, ProposalsFrom, Exceptions, TextSet, MemberLists, Level, FiledFor, JoinedTo, KeysOf, MemberKeys,
         AllStored, UniqueIds, Ordered, Presentable, FirstAmong, RequiredPass;
    RowsOfProposal(b, refs, cases, similarity, k);
    KeysOfMembers(events, MemberLists(b, cases)[k]);
    JoinIsFaithful(b, refs, cases, similarity, stored, k);
    assert Decisions(b, ps)[k] == Decide(b.runId, ps[k], b.policy);
  }

  // ---- apart --------------------------------------------------------------------------------

  lemma {:induction false} KeyTellsRow(b: Batch, x: Event, y: Event)
    requires Ordered(b.events) && Issued(b.runId, b.events) && x in b.events && y in b.events && SourceKey(x) == SourceKey(y)
    ensures x == y
  {
    hide Ordered;
    assert IdSuffix(x.source, x.recordId) == ":" + SourceKey(x) && IdSuffix(y.source, y.recordId) == ":" + SourceKey(y);
    IdSuffixIsInjective(x.source, x.recordId, y.source, y.recordId);
    IdDeterminesEvent(b.events, x, y);
  }

  /** Different proposals of a run are predicted with disjoint keys. */
  lemma {:induction false} KeysAreDisjoint(b: Batch, refs: seq<string>, cases: seq<Facts>, i: nat, j: nat)
    requires WellFormed(b) && Known(b, refs) && Ascending(refs) && cases == Cases(b, refs) && Issued(b.runId, b.events)
    requires i < |MemberLists(b, cases)| && j < |MemberLists(b, cases)| && i != j
    ensures KeysOf(MemberLists(b, cases)[i]) !! KeysOf(MemberLists(b, cases)[j])
  {
    hide Cases, MemberLists, Known, Ascending, Ordered, SourceKey, Issued;
    ListsAreSound(b, refs, cases, i);
    ListsAreSound(b, refs, cases, j);
    MemberSetsDiffer(b, refs, cases, i, j);
    var s, t := MemberLists(b, cases)[i], MemberLists(b, cases)[j];
    forall key | key in KeysOf(s) ensures key !in KeysOf(t) {
      if key in KeysOf(t) {
        var x :| x in s && SourceKey(x) == key;
        var y :| y in t && SourceKey(y) == key;
        assert x.eventId in IdSet(s) && y.eventId in IdSet(t);
        KeyTellsRow(b, x, y);
      }
    }
  }

  /** Different decisions have different names. */
  ghost predicate Injective(name: Naming) {
    forall x, y :: name(x) == name(y) ==> x == y
  }

  lemma {:induction false} NamesAreDifferent(b: Batch, ps: seq<Proposal>, name: Naming, i: nat, j: nat)
    requires Injective(name) && RunProtocol.DistinctKeys(ps) && i < |ps| && j < |ps| && i != j
    ensures name(Decide(b.runId, ps[i], b.policy).decisionId) != name(Decide(b.runId, ps[j], b.policy).decisionId)
  {
    var x, y := Decide(b.runId, ps[i], b.policy).decisionId, Decide(b.runId, ps[j], b.policy).decisionId;
    assert x.key == ps[i].caseKey && y.key == ps[j].caseKey by {
      hide Level, FirstAmong, RequiredPass;
    }
    hide Decide;
    assert ps[i].caseKey != ps[j].caseKey by {
      if i < j {
        assert ps[i].caseKey != ps[j].caseKey;
      } else {
        assert ps[j].caseKey != ps[i].caseKey;
      }
    }
  }

  /** The predictions of a run are pairwise apart: disjoint keys and different decision ids. */
  ghost predicate Separate(ps: seq<Prediction>) {
    forall p, q | p in ps && q in ps && p != q :: p.members !! q.members && p.decisionId != q.decisionId
  }

  lemma {:induction false} PredictionsAreSeparate(b: Batch, refs: seq<string>, cases: seq<Facts>, similarity: Similarity,
                                                  events: seq<Event>, stored: seq<ExceptionCase>, name: Naming)
    requires Stores(events, b)
    requires WellFormed(b) && Known(b, refs) && Ascending(refs) && cases == Cases(b, refs) && Presentable(b, cases)
    requires Issued(b.runId, b.events) && Injective(name)
    requires var ps := ProposalsFrom(b, cases, similarity);
      RunProtocol.DistinctKeys(ps) && forall x :: x in stored <==> x in Exceptions(b, ps)
    ensures Separate(AllPredictions(events, stored, Decisions(b, ProposalsFrom(b, cases, similarity)), name))
  {
    var ps := ProposalsFrom(b, cases, similarity);
    var predictions := AllPredictions(events, stored, Decisions(b, ps), name);
    hide Cases, Known, Ascending, WellFormed, ProposalsFrom, Exceptions, MemberLists, KeysOf, Presentable, Issued, Injective, Decide, AllPredictions,
         PredictionOf, RunProtocol.DistinctKeys, FiledFor, AllStored;
    PredictionsLength(events, stored, Decisions(b, ps), name);
    forall i: nat | i < |ps|
      ensures |MemberLists(b, cases)| == |ps| && predictions[i] == RunPrediction(b, cases, similarity, name, i)
    {
      PredictionAt(events, stored, Decisions(b, ps), name, i);
      PredictionsOfRun(b, refs, cases, similarity, events, stored, name, i);
      RowsOfProposal(b, refs, cases, similarity, i);
    }
    forall i: nat, j: nat | i < |ps| && j < |ps| && i != j
      ensures predictions[i].members !! predictions[j].members && predictions[i].decisionId != predictions[j].decisionId
    {
      KeysAreDisjoint(b, refs, cases, i, j);
      NamesAreDifferent(b, ps, name, i, j);
    }
    hide RunPrediction;
  }

  /** The join, the keys and the matching together: when a stored run groups exactly the rows of a true case, the
      evaluator assigns that case the run's own decision, whatever else the run and the truth contain. */
  lemma {:induction false} ExactCaseIsAssigned(b: Batch, similarity: Similarity, r: RunProtocol.RunRecord, events: seq<Event>,
                                               stored: seq<ExceptionCase>, name: Naming, truths: seq<Truth>, c: Truth, k: nat)
    requires Stores(events, b)
    requires WellFormed(b) && Issued(b.runId, b.events) && Injective(name)
    requires Known(b, SettlementReferences(b)) && Presentable(b, AllCases(b))
    requires r.decisions == [] && r.exceptions == [] && r.summary.None? && RunProtocol.Storable(r, Kernel(b, similarity))
    requires forall x :: x in stored <==> x in Kernel(b, similarity).exceptions
    requires forall d, e | d in truths && e in truths && d != e :: d.members !! e.members && d.caseId != e.caseId
    requires c in truths && k < |ProposalsFrom(b, AllCases(b), similarity)| && k < |MemberLists(b, AllCases(b))|
    requires c.members == KeysOf(MemberLists(b, AllCases(b))[k])
    ensures var predictions := SortPredictions(AllPredictions(events, stored, Kernel(b, similarity).decisions, name));
      PairOf(c, RunPrediction(b, AllCases(b), similarity, name, k)) in Assigned(truths, predictions)
  {
    hide Cases, Known, Ascending, WellFormed, ProposalsFrom, Exceptions, MemberLists, KeysOf, Presentable, Issued, Injective, Decisions, AllPredictions,
         PredictionOf, RunProtocol.DistinctKeys, RunProtocol.Storable, FiledFor, AllStored, SettlementReferences, SortPredictions, RunPrediction, Assigned,
         Separate, Stores, PairOf;
    var refs, cases := SettlementReferences(b), AllCases(b);
    var ps := ProposalsFrom(b, cases, similarity);
    AscendingReferences(b);
    RunProtocol.StorableExactly(b, ps, r);
    PredictionsAreSeparate(b, refs, cases, similarity, events, stored, name);
    PredictionIsListed(b, refs, cases, similarity, events, stored, name, k);
    AssignedFrom(truths, AllPredictions(events, stored, Decisions(b, ps), name), c, RunPrediction(b, cases, similarity, name, k));
  }

  lemma AscendingReferences(b: Batch)
    ensures Ascending(SettlementReferences(b))
  {
    SortedDistinctAscending(SettlementKeys(Select(b.events, FromSource(Gateway))));
    hide SettlementKeys, Select, SortedDistinct, Ascending;
  }

  lemma {:induction false} PredictionIsListed(b: Batch, refs: seq<string>, cases: seq<Facts>, similarity: Similarity, events: seq<Event>,
                                              stored: seq<ExceptionCase>, name: Naming, k: nat)
    requires Stores(events, b)
    requires WellFormed(b) && Known(b, refs) && Ascending(refs) && cases == Cases(b, refs) && Presentable(b, cases)
    requires k < |ProposalsFrom(b, cases, similarity)|
    requires var ps := ProposalsFrom(b, cases, similarity);
      forall x :: x in stored <==> x in Exceptions(b, ps)
    ensures k < |MemberLists(b, cases)| && MemberLists(b, cases)[k] != []
    ensures var p := RunPrediction(b, cases, similarity, name, k);
      && p in AllPredictions(events, stored, Decisions(b, ProposalsFrom(b, cases, similarity)), name)
      && p.members == KeysOf(MemberLists(b, cases)[k]) && p.members != {}
  {
    hide Cases, Known, Ascending, WellFormed, ProposalsFrom, Exceptions, MemberLists, KeysOf, Presentable, Decide, AllPredictions, PredictionOf, AllStored,
         Stores, RunPrediction;
    var ds := Decisions(b, ProposalsFrom(b, cases, similarity));
    PredictionAt(events, stored, ds, name, k);
    PredictionsOfRun(b, refs, cases, similarity, events, stored, name, k);
    RowsOfProposal(b, refs, cases, similarity, k);
    RowsGiveKeys(MemberLists(b, cases)[k]);
    PredictionMembers(b, cases, similarity, name, k);
    assert AllPredictions(events, stored, ds, name)[k] == RunPrediction(b, cases, similarity, name, k);
  }

  lemma {:induction false} AssignedFrom(truths: seq<Truth>, all: seq<Prediction>, c: Truth, p: Prediction)
    requires forall d, e | d in truths && e in truths && d != e :: d.members !! e.members && d.caseId != e.caseId
    requires Separate(all) && c in truths && p in all && p.members == c.members != {}
    ensures PairOf(c, p) in Assigned(truths, SortPredictions(all))
  {
    hide Separate, SortPredictions, Assigned, PairwiseApart;
    SortPredictionsMembers(all);
    SeparateApart(truths, all, SortPredictions(all));
    ExactPredictionIsAssigned(truths, SortPredictions(all), c, p);
  }

  lemma RowsGiveKeys(rows: seq<Event>)
    requires rows != []
    ensures KeysOf(rows) != {}
  {
    assert SourceKey(rows[0]) in KeysOf(rows);
  }

  lemma PredictionMembers(b: Batch, cases: seq<Facts>, similarity: Similarity, name: Naming, k: nat)
    requires Presentable(b, cases) && k < |ProposalsFrom(b, cases, similarity)| && k < |MemberLists(b, cases)|
    ensures RunPrediction(b, cases, similarity, name, k).members == KeysOf(MemberLists(b, cases)[k])
  {
    hide KeysOf, MemberLists, ProposalsFrom, Presentable, Decide, FiledFor;
  }

  lemma SeparateApart(truths: seq<Truth>, all: seq<Prediction>, sorted: seq<Prediction>)
    requires forall d, e | d in truths && e in truths && d != e :: d.members !! e.members && d.caseId != e.caseId
    requires Separate(all) && forall p :: p in sorted <==> p in all
    ensures PairwiseApart(truths, sorted)
  {
  }
}
