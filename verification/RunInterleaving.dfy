/** Any interleaving of imports, runs, kernel failures, rollbacks and crashes, over serializable
    transactions. */
module RunInterleaving {
  import opened Events
  import opened Pipeline
  import opened RunProtocol

  /** Where one call of `run` stands between its transactions. */
  datatype Attempt =
    | Working(runId: string)
    | Committed(runId: string)
    | Failing(runId: string)
    | Over

  datatype World = World(store: Store, attempts: map<nat, Attempt>)

  datatype Move =
    | Imports(runId: string, policyVersion: string, ready: bool)
    | Starts(attempt: nat, runId: string, policyId: string, versionedId: string)
    | Commits(attempt: nat, result: KernelResult)
    | KernelRaises(attempt: nat)
    | CommitFails(attempt: nat)
    | ReportFails(attempt: nat)
    | MarksFailed(attempt: nat)
    | Crashes(attempt: nat)

  function AttemptOf(w: World, a: nat): Attempt {
    if a in w.attempts then w.attempts[a] else Over
  }

  /** One move takes the world from `w` to `v`; the transactions are those of the run store. */
  ghost predicate Step(w: World, e: Move, v: World) {
    match e
    case Imports(runId, policyVersion, ready) =>
      v == World(AfterImport(w.store, runId, policyVersion, ready), w.attempts)
    case Starts(a, runId, policyId, versionedId) =>
      && a !in w.attempts
      && v == World(AfterStart(w.store, runId, policyId, versionedId),
                    w.attempts[a := if MayStart(w.store, runId, policyId, versionedId) then Working(runId) else Over])
    case Commits(a, k) =>
      && AttemptOf(w, a).Working? && AttemptOf(w, a).runId in w.store
      && Storable(w.store[AttemptOf(w, a).runId], k)
      && var runId := AttemptOf(w, a).runId;
      v == World(AfterCommit(w.store, runId, k), w.attempts[a := Committed(runId)])
    case KernelRaises(a) =>
      AttemptOf(w, a).Working? && v == World(w.store, w.attempts[a := Failing(AttemptOf(w, a).runId)])
    case CommitFails(a) =>
      AttemptOf(w, a).Working? && v == World(w.store, w.attempts[a := Failing(AttemptOf(w, a).runId)])
    case ReportFails(a) =>
      AttemptOf(w, a).Committed? && v == World(w.store, w.attempts[a := Failing(AttemptOf(w, a).runId)])
    case MarksFailed(a) =>
      && AttemptOf(w, a).Failing?
      && v == World(AfterMark(w.store, AttemptOf(w, a).runId), w.attempts[a := Over])
    case Crashes(a) =>
      v == World(w.store, w.attempts[a := Over])
  }

  ghost predicate Execution(ws: seq<World>, es: seq<Move>) {
    && |ws| == |es| + 1 && ws[0] == World(map[], map[])
    && forall i | 0 <= i < |es| :: Step(ws[i], es[i], ws[i + 1])
  }

  // ---- legal paths --------------------------------------------------------------------------

  ghost predicate Legal(path: seq<RunState>) {
    && path != [] && path[0] == Created
    && forall i | 0 <= i < |path| - 1 :: path[i + 1] in Allowed(path[i])
  }

  function Rank(state: RunState): nat {
    match state
    case Created => 0
    case FilesAttached => 1
    case Validated => 2
    case Reconciling => 3
    case _ => 4
  }

  /** A legal path only moves forward, so no state comes twice. */
  lemma {:induction false} PathsMoveForward(path: seq<RunState>, i: nat, j: nat)
    requires Legal(path) && i < j < |path|
    ensures Rank(path[i]) < Rank(path[j])
    decreases j - i
  {
    if i + 1 < j {
      PathsMoveForward(path, i + 1, j);
    }
    assert path[i + 1] in Allowed(path[i]);
  }

  lemma {:induction false} LegalExtension(path: seq<RunState>, state: RunState)
    requires Legal(path) && state in Allowed(path[|path| - 1])
    ensures Legal(path + [state])
  {
    var longer := path + [state];
    forall i | 0 <= i < |longer| - 1 ensures longer[i + 1] in Allowed(longer[i]) {
      assert longer[i] == path[i];
      assert longer[i + 1] == if i + 1 < |path| then path[i + 1] else state;
    }
  }

  // ---- the invariant ------------------------------------------------------------------------

  predicate Holds(a: Attempt, runId: string) {
    a != Over && a.runId == runId
  }

  /** A run's snapshots are legal, and its results are there exactly when it is completed. */
  ghost predicate RecordIsSound(r: RunRecord) {
    && Legal(r.path)
    && (r.summary.Some? <==> r.path[|r.path| - 1] == Completed)
    && (r.path[|r.path| - 1] != Completed ==> r.decisions == [] && r.exceptions == [])
    && (r.summary.Some? ==> r.summary.value.decisionCount == |r.decisions| && r.summary.value.exceptionCount == |r.exceptions|)
  }

  /** What an unfinished call knows of the run it holds. */
  ghost predicate AttemptIsSound(w: World, a: Attempt) {
    match a
    case Working(runId) => Latest(w.store, runId) == Some(Reconciling)
    case Committed(runId) => Latest(w.store, runId) == Some(Completed)
    case Failing(runId) => Latest(w.store, runId) in {Some(Reconciling), Some(Completed)}
    case Over => true
  }

  ghost predicate Invariant(w: World) {
    && (forall runId | runId in w.store :: RecordIsSound(w.store[runId]))
    && (forall a | a in w.attempts :: AttemptIsSound(w, w.attempts[a]))
    && (forall a, b, runId | a in w.attempts && b in w.attempts && a != b ::
         !(Holds(w.attempts[a], runId) && Holds(w.attempts[b], runId)))
  }

  /** A run that may still start is held by nobody. */
  lemma {:induction false} UnstartedIsUnheld(w: World, runId: string, a: nat)
    requires Invariant(w) && Latest(w.store, runId) == Some(Validated) && a in w.attempts
    ensures !Holds(w.attempts[a], runId)
  {
    assert AttemptIsSound(w, w.attempts[a]);
  }

  lemma {:induction false} StoreChange(w: World, v: World, runId: string)
    requires forall a | a in w.attempts :: AttemptIsSound(w, w.attempts[a])
    requires forall other | other != runId :: Latest(v.store, other) == Latest(w.store, other)
    ensures forall a | a in w.attempts && !Holds(w.attempts[a], runId) :: AttemptIsSound(v, w.attempts[a])
  {
    forall a | a in w.attempts && !Holds(w.attempts[a], runId) ensures AttemptIsSound(v, w.attempts[a]) {
      assert AttemptIsSound(w, w.attempts[a]);
    }
  }

  lemma {:induction false} StartKeeps(w: World, e: Move, v: World)
    requires Invariant(w) && Step(w, e, v) && e.Starts?
    ensures Invariant(v)
  {
    if MayStart(w.store, e.runId, e.policyId, e.versionedId) {
      LegalExtension(w.store[e.runId].path, Reconciling);
      forall a | a in w.attempts ensures !Holds(w.attempts[a], e.runId) {
        UnstartedIsUnheld(w, e.runId, a);
      }
      StoreChange(w, v, e.runId);
    } else {
      StoreChange(w, v, "");
      forall a | a in w.attempts ensures AttemptIsSound(v, w.attempts[a]) {
        assert AttemptIsSound(w, w.attempts[a]);
      }
    }
  }

  lemma {:induction false} CommitKeeps(w: World, e: Move, v: World)
    requires Invariant(w) && Step(w, e, v) && e.Commits?
    ensures Invariant(v)
  {
    var runId := AttemptOf(w, e.attempt).runId;
    assert AttemptIsSound(w, w.attempts[e.attempt]);
    LegalExtension(w.store[runId].path, Completed);
    forall a | a in w.attempts && a != e.attempt ensures !Holds(w.attempts[a], runId) {
      assert Holds(w.attempts[e.attempt], runId);
    }
    StoreChange(w, v, runId);
  }

  lemma {:induction false} MarkKeeps(w: World, e: Move, v: World)
    requires Invariant(w) && Step(w, e, v) && e.MarksFailed?
    ensures Invariant(v)
  {
    var runId := AttemptOf(w, e.attempt).runId;
    forall a | a in w.attempts && a != e.attempt ensures !Holds(w.attempts[a], runId) {
      assert Holds(w.attempts[e.attempt], runId);
    }
    if Latest(w.store, runId) == Some(Reconciling) {
      LegalExtension(w.store[runId].path, Failed);
    }
    StoreChange(w, v, runId);
  }

  lemma {:induction false} ImportKeeps(w: World, e: Move, v: World)
    requires Invariant(w) && Step(w, e, v) && e.Imports?
    ensures Invariant(v)
  {
    forall a | a in w.attempts && e.runId !in w.store ensures !Holds(w.attempts[a], e.runId) {
      assert AttemptIsSound(w, w.attempts[a]);
    }
    StoreChange(w, v, e.runId);
    if e.runId in w.store {
      forall a | a in w.attempts ensures AttemptIsSound(v, w.attempts[a]) {
        assert AttemptIsSound(w, w.attempts[a]);
      }
    }
  }

  lemma {:induction false} OtherStepsKeep(w: World, e: Move, v: World)
    requires Invariant(w) && Step(w, e, v) && (e.KernelRaises? || e.CommitFails? || e.ReportFails? || e.Crashes?)
    ensures Invariant(v)
  {
    forall a | a in v.attempts ensures AttemptIsSound(v, v.attempts[a]) {
      if a in w.attempts {
        assert AttemptIsSound(w, w.attempts[a]);
      }
    }
    forall a, runId | a in v.attempts && Holds(v.attempts[a], runId) ensures a in w.attempts && Holds(w.attempts[a], runId) {
    }
  }

  lemma {:induction false} EveryStepKeeps(w: World, e: Move, v: World)
    requires Invariant(w) && Step(w, e, v)
    ensures Invariant(v)
  {
    hide Invariant, Step;
    match e {
      case Imports(_, _, _) => ImportKeeps(w, e, v);
      case Starts(_, _, _, _) => StartKeeps(w, e, v);
      case Commits(_, _) => CommitKeeps(w, e, v);
      case MarksFailed(_) => MarkKeeps(w, e, v);
      case _ => OtherStepsKeep(w, e, v);
    }
  }

  /** In every world that any execution reaches, snapshots form legal paths, and decisions, exceptions
      and the summary are stored exactly for the completed runs. */
  lemma {:induction false} EveryWorldIsSound(ws: seq<World>, es: seq<Move>, i: nat)
    requires Execution(ws, es) && i < |ws|
    ensures Invariant(ws[i])
  {
    hide Step;
    if i > 0 {
      EveryWorldIsSound(ws, es, i - 1);
      hide Invariant;
      assert Step(ws[i - 1], es[i - 1], ws[i]);
      EveryStepKeeps(ws[i - 1], es[i - 1], ws[i]);
    }
  }

  // ---- whole executions ---------------------------------------------------------------------

  /** A run's past is never rewritten; once it has ended, nothing about it changes. */
  lemma {:induction false} PastIsKept(w: World, e: Move, v: World, runId: string)
    requires Invariant(w) && Step(w, e, v) && runId in w.store
    ensures runId in v.store && w.store[runId].path <= v.store[runId].path
    ensures Rank(w.store[runId].path[|w.store[runId].path| - 1]) == 4 ==> v.store[runId] == w.store[runId]
  {
    assert RecordIsSound(w.store[runId]);
    if e.Commits? {
      assert AttemptIsSound(w, w.attempts[e.attempt]);
    }
  }

  lemma {:induction false} HistoryIsKept(ws: seq<World>, es: seq<Move>, i: nat, j: nat, runId: string)
    requires Execution(ws, es) && i <= j < |ws| && runId in ws[i].store
    ensures runId in ws[j].store && ws[i].store[runId].path <= ws[j].store[runId].path
    ensures Latest(ws[i].store, runId) in {Some(Completed), Some(Failed), Some(FailedValidation)}
      ==> ws[j].store[runId] == ws[i].store[runId]
  {
    hide Step;
    if i < j {
      HistoryIsKept(ws, es, i, j - 1, runId);
      EveryWorldIsSound(ws, es, j - 1);
      assert RecordIsSound(ws[j - 1].store[runId]);
      hide Invariant;
      assert Step(ws[j - 1], es[j - 1], ws[j]);
      PastIsKept(ws[j - 1], es[j - 1], ws[j], runId);
    }
  }

  /** Does the `i`-th move get a call past the guard of the run? */
  ghost predicate PassesGuard(ws: seq<World>, es: seq<Move>, i: nat, runId: string)
    requires Execution(ws, es) && i < |es|
  {
    es[i].Starts? && es[i].runId == runId && MayStart(ws[i].store, runId, es[i].policyId, es[i].versionedId)
  }

  /** At most one call ever gets past the guard of a run, however the calls interleave. */
  lemma {:induction false} GuardPassesOnce(ws: seq<World>, es: seq<Move>, i: nat, j: nat, runId: string)
    requires Execution(ws, es) && i < j < |es| && PassesGuard(ws, es, i, runId)
    ensures !PassesGuard(ws, es, j, runId)
  {
    assert Step(ws[i], es[i], ws[i + 1]);
    var before := ws[i + 1].store[runId].path;
    assert before[|before| - 1] == Reconciling;
    HistoryIsKept(ws, es, i + 1, j, runId);
    EveryWorldIsSound(ws, es, j);
    var path := ws[j].store[runId].path;
    assert RecordIsSound(ws[j].store[runId]);
    if |before| < |path| {
      PathsMoveForward(path, |before| - 1, |path| - 1);
    }
  }

  /** Only a call that holds a reconciling run can end it: after a crash it stays reconciling. */
  lemma {:induction false} AbandonedStaysReconciling(w: World, e: Move, v: World, runId: string)
    requires Invariant(w) && Step(w, e, v) && Latest(w.store, runId) == Some(Reconciling)
    requires forall a | a in w.attempts :: !Holds(w.attempts[a], runId)
    ensures Latest(v.store, runId) == Some(Reconciling) && v.store[runId] == w.store[runId]
    ensures forall a | a in v.attempts :: !Holds(v.attempts[a], runId)
  {
    forall a | a in v.attempts ensures !Holds(v.attempts[a], runId) {
      if a in w.attempts {
        assert !Holds(w.attempts[a], runId);
      }
    }
  }

  /** A continuation of `w`: any further moves. */
  ghost predicate Continues(w: World, ws: seq<World>, es: seq<Move>) {
    && |ws| == |es| + 1 && ws[0] == w
    && forall i | 0 <= i < |es| :: Step(ws[i], es[i], ws[i + 1])
  }

  ghost predicate Unheld(w: World, runId: string) {
    forall a | a in w.attempts :: !Holds(w.attempts[a], runId)
  }

  /** A reconciling run that no call holds: no later move can finish or fail it. */
  lemma {:induction false} CrashLeavesRunReconciling(w: World, ws: seq<World>, es: seq<Move>, j: nat, runId: string)
    requires Invariant(w) && Continues(w, ws, es) && j < |ws|
    requires Latest(w.store, runId) == Some(Reconciling) && Unheld(w, runId)
    ensures Invariant(ws[j]) && Latest(ws[j].store, runId) == Some(Reconciling) && Unheld(ws[j], runId)
  {
    hide Step;
    if j > 0 {
      CrashLeavesRunReconciling(w, ws, es, j - 1, runId);
      hide Invariant;
      assert Step(ws[j - 1], es[j - 1], ws[j]);
      EveryStepKeeps(ws[j - 1], es[j - 1], ws[j]);
      AbandonedStaysReconciling(ws[j - 1], es[j - 1], ws[j], runId);
    }
  }

  /** A reconciling run that some call still holds can always be ended: the call can yet fail it. */
  lemma {:induction false} HeldRunCanEnd(w: World, a: nat, runId: string) returns (ws: seq<World>, es: seq<Move>)
    requires Invariant(w) && Latest(w.store, runId) == Some(Reconciling) && a in w.attempts && Holds(w.attempts[a], runId)
    ensures Continues(w, ws, es) && Latest(ws[|es|].store, runId) == Some(Failed)
  {
    assert AttemptIsSound(w, w.attempts[a]);
    var failing := if w.attempts[a].Failing? then w else World(w.store, w.attempts[a := Failing(runId)]);
    var ended := World(AfterMark(w.store, runId), failing.attempts[a := Over]);
    assert Step(failing, MarksFailed(a), ended);
    if w.attempts[a].Failing? {
      ws, es := [w, ended], [MarksFailed(a)];
    } else {
      assert Step(w, KernelRaises(a), failing);
      ws, es := [w, failing, ended], [KernelRaises(a), MarksFailed(a)];
    }
  }

  /** A reconciling run is stuck, whatever is called from now on, if and only if no call holds it. */
  lemma {:induction false} StuckExactlyWhenUnheld(w: World, runId: string)
    requires Invariant(w) && Latest(w.store, runId) == Some(Reconciling)
    ensures Unheld(w, runId)
      <==> forall ws: seq<World>, es: seq<Move> :: Continues(w, ws, es) ==> Latest(ws[|es|].store, runId) == Some(Reconciling)
  {
    hide Step, Invariant, Latest;
    if Unheld(w, runId) {
      forall ws: seq<World>, es: seq<Move> | Continues(w, ws, es) ensures Latest(ws[|es|].store, runId) == Some(Reconciling) {
        CrashLeavesRunReconciling(w, ws, es, |es|, runId);
      }
    } else {
      var a :| a in w.attempts && Holds(w.attempts[a], runId);
      var ws, es := HeldRunCanEnd(w, a, runId);
    }
  }

  /** And it happens: import a run, start it, and let the only call crash between its transactions. */
  lemma {:induction false} CrashStrandsRun(runId: string, policyId: string) returns (ws: seq<World>, es: seq<Move>)
    ensures Execution(ws, es) && |es| == 3
    ensures Latest(ws[3].store, runId) == Some(Reconciling) && Unheld(ws[3], runId)
    ensures forall vs: seq<World>, fs: seq<Move> :: Continues(ws[3], vs, fs) ==> Latest(vs[|fs|].store, runId) == Some(Reconciling)
  {
    var start := World(map[], map[]);
    var imported := World(AfterImport(start.store, runId, policyId, true), map[]);
    var working := World(AfterStart(imported.store, runId, policyId, policyId), map[0 := Working(runId)]);
    var crashed := World(working.store, map[0 := Over]);
    ws, es := [start, imported, working, crashed],
              [Imports(runId, policyId, true), Starts(0, runId, policyId, policyId), Crashes(0)];
    assert MayStart(imported.store, runId, policyId, policyId);
    assert Step(start, es[0], imported) && Step(imported, es[1], working) && Step(working, es[2], crashed);
    assert Execution(ws, es);
    EveryWorldIsSound(ws, es, 3);
    assert Unheld(crashed, runId);
    hide Invariant, Step, Execution;
    StuckExactlyWhenUnheld(crashed, runId);
  }
}
