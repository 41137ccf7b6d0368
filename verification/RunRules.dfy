/** What each transaction of a run does, and the paths that runs take. */
module RunRules {
  import opened Events
  import opened Proposals
  import opened Gate
  import opened Context
  import opened Pipeline
  import opened RunProtocol
  import opened RunInterleaving

  // ---- transitions --------------------------------------------------------------------------

  /** The step is one of the lifecycle's: forward, into one of the two failures, or a cancellation before the end. */
  predicate IsStep(a: RunState, b: RunState) {
    || (a == Created && b == FilesAttached) || (a == FilesAttached && b == Validated)
    || (a == Validated && b == Reconciling) || (a == Reconciling && b == Completed)
    || (a == FilesAttached && b == FailedValidation) || (a == Reconciling && b == Failed)
    || (b == Cancelled && (a == Created || a == FilesAttached || a == Validated || a == Reconciling))
  }

  lemma StepsExactly(a: RunState, b: RunState)
    ensures b in Allowed(a) <==> IsStep(a, b)
  {
  }

  // ---- the four transactions ----------------------------------------------------------------

  predicate IsAt(s: Store, runId: string, state: RunState) {
    runId in s && s[runId].path != [] && s[runId].path[|s[runId].path| - 1] == state
  }

  /** Only a validated run imported for this policy, by its id or by its versioned id, leaves VALIDATED. */
  lemma StartExactly(s: Store, runId: string, policyId: string, versionedId: string)
    ensures var t := AfterStart(s, runId, policyId, versionedId);
      if IsAt(s, runId, Validated) && (s[runId].policyVersion == policyId || s[runId].policyVersion == versionedId)
      then t == s[runId := s[runId].(path := s[runId].path + [Reconciling])] && IsAt(t, runId, Reconciling)
      else t == s && !MayStart(s, runId, policyId, versionedId)
  {
  }

  /** A new run has its files attached and is validated exactly when the files are ready; one that exists is kept. */
  lemma ImportExactly(s: Store, runId: string, policyVersion: string, ready: bool)
    ensures var t := AfterImport(s, runId, policyVersion, ready);
      && (runId in s ==> t == s)
      && (runId !in s ==>
           && IsAt(t, runId, if ready then Validated else FailedValidation) && t[runId].policyVersion == policyVersion
           && t[runId].decisions == [] && t[runId].exceptions == [] && t[runId].summary.None?
           && forall other | other != runId :: (other in t <==> other in s) && (other in s ==> t[other] == s[other]))
  {
  }

  /** What the exceptions put at risk, all together. */
  function TotalAtRisk(xs: seq<ExceptionCase>): int {
    if xs == [] then 0 else TotalAtRisk(xs[..|xs| - 1]) + xs[|xs| - 1].amountAtRisk
  }

  lemma {:induction false} AtRiskSnoc(xs: seq<ExceptionCase>, x: ExceptionCase)
    ensures AtRisk(xs + [x]) == AtRisk(xs) + x.amountAtRisk
  {
    if xs != [] {
      AtRiskSnoc(xs[1..], x);
      assert (xs + [x])[1..] == xs[1..] + [x];
    }
  }

  lemma {:induction false} AtRiskIsTotal(xs: seq<ExceptionCase>)
    ensures AtRisk(xs) == TotalAtRisk(xs)
  {
    if xs != [] {
      AtRiskIsTotal(xs[..|xs| - 1]);
      AtRiskSnoc(xs[..|xs| - 1], xs[|xs| - 1]);
      assert xs == xs[..|xs| - 1] + [xs[|xs| - 1]];
    }
  }

  /** How many decisions the gate allowed to clear. */
  function ClearCount(ds: seq<Decision>): nat {
    if ds == [] then 0 else (if ds[0].allowsAutoClear then 1 else 0) + ClearCount(ds[1..])
  }

  lemma {:induction false} ClearCountSnoc(ds: seq<Decision>, d: Decision)
    ensures ClearCount(ds + [d]) == ClearCount(ds) + (if d.allowsAutoClear then 1 else 0)
  {
    if ds != [] {
      ClearCountSnoc(ds[1..], d);
      assert (ds + [d])[1..] == ds[1..] + [d];
    }
  }

  lemma {:induction false} AutoClearedIsCounted(ds: seq<Decision>)
    ensures RunProtocol.AutoCleared(ds) == ClearCount(ds)
  {
    if ds != [] {
      AutoClearedIsCounted(ds[..|ds| - 1]);
      ClearCountSnoc(ds[..|ds| - 1], ds[|ds| - 1]);
      assert ds == ds[..|ds| - 1] + [ds[|ds| - 1]];
    }
  }

  /** A completed run stores its decisions and exceptions, and a summary that counts them and adds up what is at risk. */
  lemma CommitExactly(s: Store, runId: string, k: KernelResult)
    requires runId in s && s[runId].decisions == [] && s[runId].exceptions == []
    ensures var t := AfterCommit(s, runId, k);
      && IsAt(t, runId, Completed) && t[runId].decisions == k.decisions && t[runId].exceptions == k.exceptions
      && t[runId].summary == Some(Summary(|k.decisions|, ClearCount(k.decisions), |k.exceptions|, TotalAtRisk(k.exceptions)))
      && t[runId].policyVersion == s[runId].policyVersion
      && forall other | other != runId :: (other in t <==> other in s) && (other in s ==> t[other] == s[other])
  {
    AtRiskIsTotal(k.exceptions);
    AutoClearedIsCounted(k.decisions);
    hide AtRisk, TotalAtRisk, RunProtocol.AutoCleared, ClearCount;
  }

  /** Only a reconciling run is marked failed. */
  lemma MarkExactly(s: Store, runId: string)
    ensures AfterMark(s, runId)
         == if IsAt(s, runId, Reconciling) then s[runId := s[runId].(path := s[runId].path + [Failed])] else s
  {
  }

  // ---- the paths that occur -----------------------------------------------------------------

  /** The five histories a run can have. */
  predicate Occurs(path: seq<RunState>) {
    || path == [Created, FilesAttached, FailedValidation]
    || path == [Created, FilesAttached, Validated]
    || path == [Created, FilesAttached, Validated, Reconciling]
    || path == [Created, FilesAttached, Validated, Reconciling, Completed]
    || path == [Created, FilesAttached, Validated, Reconciling, Failed]
  }

  ghost predicate AllOccur(s: Store) {
    forall runId | runId in s :: Occurs(s[runId].path)
  }

  lemma {:induction false} StepKeepsOccurring(w: World, e: Move, v: World)
    requires Invariant(w) && Step(w, e, v) && AllOccur(w.store)
    ensures AllOccur(v.store)
  {
    hide Occurs;
    match e {
      case Imports(runId, policyVersion, ready) => ImportOccurs(w.store, runId, policyVersion, ready);
      case Starts(_, runId, policyId, versionedId) => StartOccurs(w.store, runId, policyId, versionedId);
      case Commits(a, k) => {
        assert AttemptIsSound(w, w.attempts[a]);
        CommitOccurs(w.store, AttemptOf(w, a).runId, k);
      }
      case MarksFailed(a) => MarkOccurs(w.store, AttemptOf(w, a).runId);
      case _ =>
    }
  }

  lemma ImportOccurs(s: Store, runId: string, policyVersion: string, ready: bool)
    requires AllOccur(s)
    ensures AllOccur(AfterImport(s, runId, policyVersion, ready))
  {
  }

  lemma StartOccurs(s: Store, runId: string, policyId: string, versionedId: string)
    requires AllOccur(s)
    ensures AllOccur(AfterStart(s, runId, policyId, versionedId))
  {
  }

  lemma CommitOccurs(s: Store, runId: string, k: KernelResult)
    requires AllOccur(s) && Latest(s, runId) == Some(Reconciling)
    ensures AllOccur(AfterCommit(s, runId, k))
  {
    hide SummaryOf;
  }

  lemma MarkOccurs(s: Store, runId: string)
    requires AllOccur(s)
    ensures AllOccur(AfterMark(s, runId))
  {
  }

  /** In every world that any execution reaches, a run has failed validation, waits, is being reconciled, or has
      completed or failed after that; no other history occurs. */
  lemma {:induction false} EveryPathOccurs(ws: seq<World>, es: seq<Move>, i: nat)
    requires Execution(ws, es) && i < |ws|
    ensures AllOccur(ws[i].store)
  {
    hide Step, AllOccur;
    if i > 0 {
      EveryPathOccurs(ws, es, i - 1);
      EveryWorldIsSound(ws, es, i - 1);
      hide Invariant;
      assert Step(ws[i - 1], es[i - 1], ws[i]);
      StepKeepsOccurring(ws[i - 1], es[i - 1], ws[i]);
    } else {
      NothingYet();
    }
  }

  lemma NothingYet()
    ensures AllOccur(map[])
  {
  }
}
