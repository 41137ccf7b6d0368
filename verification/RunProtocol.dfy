/** The run lifecycle: guard, compute, commit or roll back, mark failed. */
module RunProtocol {
  import opened Events
  import opened Proposals
  import opened Gate
  import opened Pipeline
  import opened Context
  import opened Totality

  datatype RunState =
    | Created | FilesAttached | Validated | Reconciling
    | Completed | Failed | FailedValidation | Cancelled

  function Allowed(state: RunState): set<RunState> {
    match state
    case Created => {FilesAttached, Cancelled}
    case FilesAttached => {Validated, FailedValidation, Cancelled}
    case Validated => {Reconciling, Cancelled}
    case Reconciling => {Completed, Failed, Cancelled}
    case _ => {}
  }

  datatype Summary = Summary(decisionCount: nat, autoClearedCount: nat, exceptionCount: nat, amountAtRisk: int)

  /** The append-only snapshots of one run, and what its completion stored. */
  datatype RunRecord = RunRecord(
    policyVersion: string,
    path: seq<RunState>,
    decisions: seq<Decision>,
    exceptions: seq<ExceptionCase>,
    summary: Option<Summary>
  )

  type Store = map<string, RunRecord>

  function Latest(s: Store, runId: string): Option<RunState> {
    if runId in s && s[runId].path != [] then Some(s[runId].path[|s[runId].path| - 1]) else None
  }

  // ---- summaries ----------------------------------------------------------------------------

  function AutoCleared(ds: seq<Decision>): nat {
    if ds == [] then 0 else AutoCleared(ds[..|ds| - 1]) + (if ds[|ds| - 1].allowsAutoClear then 1 else 0)
  }

  function AtRisk(xs: seq<ExceptionCase>): int {
    if xs == [] then 0 else xs[0].amountAtRisk + AtRisk(xs[1..])
  }

  function SummaryOf(k: KernelResult): Summary {
    Summary(|k.decisions|, AutoCleared(k.decisions), |k.exceptions|, AtRisk(k.exceptions))
  }

  /** Under a policy that clears automatically, a stored summary adds up: every decision is either
      cleared or has its exception. */
  lemma {:induction false} SummaryAddsUp(b: Batch, ps: seq<Proposal>)
    requires b.policy.autoClear
    ensures var s := SummaryOf(KernelResult(ps, Decisions(b, ps), Exceptions(b, ps)));
      s.autoClearedCount + s.exceptionCount == s.decisionCount
  {
    OneExceptionPerOpenDecision(b, ps);
    ClearedUnlessOpen(b, ps);
  }

  lemma {:induction false} ClearedUnlessOpen(b: Batch, ps: seq<Proposal>)
    requires b.policy.autoClear
    ensures AutoCleared(Decisions(b, ps)) + NotProved(Decisions(b, ps)) == |ps|
  {
    if ps != [] {
      var init, last := ps[..|ps| - 1], ps[|ps| - 1];
      ClearedUnlessOpen(b, init);
      assert Decisions(b, ps)[..|ps| - 1] == Decisions(b, init);
      ProvedIsCleared(b.runId, last, b.policy);
      hide Decide;
    }
  }

  lemma ProvedIsCleared(runId: string, p: Proposal, policy: Policy)
    requires policy.autoClear
    ensures Decide(runId, p, policy).allowsAutoClear <==> Decide(runId, p, policy).level == Proved
  {
    hide RequiredPass, FirstAmong;
  }

  // ---- the store ----------------------------------------------------------------------------

  function CaseIds(xs: seq<ExceptionCase>): seq<StableId> {
    seq(|xs|, i requires 0 <= i < |xs| => xs[i].caseId)
  }

  function DecisionIds(ds: seq<Decision>): seq<StableId> {
    seq(|ds|, i requires 0 <= i < |ds| => ds[i].decisionId)
  }

  predicate NoRepeats(ids: seq<StableId>) {
    forall i, j | 0 <= i < j < |ids| :: ids[i] != ids[j]
  }

  /** The primary keys admit the result: no decision, case or run summary is stored twice. */
  predicate Storable(r: RunRecord, k: KernelResult) {
    && r.summary.None?
    && NoRepeats(DecisionIds(r.decisions + k.decisions)) && NoRepeats(CaseIds(r.exceptions + k.exceptions))
  }

  predicate MayStart(s: Store, runId: string, policyId: string, versionedId: string) {
    Latest(s, runId) == Some(Validated) && s[runId].policyVersion in {policyId, versionedId}
  }

  function Extend(r: RunRecord, state: RunState): RunRecord {
    r.(path := r.path + [state])
  }

  function Stored(r: RunRecord, k: KernelResult): RunRecord {
    Extend(r, Completed).(decisions := r.decisions + k.decisions, exceptions := r.exceptions + k.exceptions,
                          summary := Some(SummaryOf(k)))
  }

  // ---- the four transactions ----------------------------------------------------------------

  /** Imports a batch of files: three snapshots in one transaction, unless the run exists. */
  function AfterImport(s: Store, runId: string, policyVersion: string, ready: bool): Store {
    if runId in s then s
    else s[runId := RunRecord(policyVersion, [Created, FilesAttached, if ready then Validated else FailedValidation], [], [], None)]
  }

  /** The guard: only a validated run of this policy starts, and it starts by leaving VALIDATED. */
  function AfterStart(s: Store, runId: string, policyId: string, versionedId: string): Store {
    if MayStart(s, runId, policyId, versionedId) then s[runId := Extend(s[runId], Reconciling)] else s
  }

  /** The completing transaction stores everything at once. */
  function AfterCommit(s: Store, runId: string, k: KernelResult): Store
    requires runId in s
  {
    s[runId := Stored(s[runId], k)]
  }

  /** Marks a run failed, if it is still reconciling. */
  function AfterMark(s: Store, runId: string): Store {
    if Latest(s, runId) == Some(Reconciling) then s[runId := Extend(s[runId], Failed)] else s
  }

  class RunStore {
    var runs: Store

    constructor ()
      ensures runs == map[]
    {
      runs := map[];
    }

    method Import(runId: string, policyVersion: string, ready: bool) returns (ok: bool)
      modifies this
      ensures ok == (runId !in old(runs))
      ensures runs == AfterImport(old(runs), runId, policyVersion, ready)
    {
      ok := runId !in runs;
      if ok {
        var record := RunRecord(policyVersion, [], [], [], None);
        record := Extend(record, Created);
        record := Extend(record, FilesAttached);
        record := Extend(record, if ready then Validated else FailedValidation);
        assert record.path == [Created, FilesAttached, if ready then Validated else FailedValidation];
        runs := runs[runId := record];
      }
    }

    method Start(runId: string, policyId: string, versionedId: string) returns (ok: bool)
      modifies this
      ensures ok == MayStart(old(runs), runId, policyId, versionedId)
      ensures runs == AfterStart(old(runs), runId, policyId, versionedId)
    {
      ok := Latest(runs, runId) == Some(Validated) && runs[runId].policyVersion in {policyId, versionedId};
      if ok {
        runs := runs[runId := Extend(runs[runId], Reconciling)];
      }
    }

    method AppendDecisions(runId: string, decisions: seq<Decision>) returns (ok: bool)
      requires runId in runs && NoRepeats(DecisionIds(runs[runId].decisions))
      modifies this
      ensures ok == NoRepeats(DecisionIds(old(runs)[runId].decisions + decisions))
      ensures ok ==> runs == old(runs)[runId := old(runs)[runId].(decisions := old(runs)[runId].decisions + decisions)]
    {
      var before := runs[runId];
      ok := true;
      assert runs[runId := before] == runs;
      assert before.decisions + decisions[..0] == before.decisions;
      assert runs == runs[runId := before.(decisions := before.decisions + decisions[..0])];
      for i := 0 to |decisions|
        invariant ok && runs == old(runs)[runId := before.(decisions := before.decisions + decisions[..i])]
        invariant NoRepeats(DecisionIds(before.decisions + decisions[..i]))
      {
        var stored := runs[runId].decisions;
        assert before.decisions + decisions[..i + 1] == stored + [decisions[i]];
        if decisions[i].decisionId in DecisionIds(stored) {
          ok := false;
          var j :| 0 <= j < |stored| && stored[j].decisionId == decisions[i].decisionId;
          var all := before.decisions + decisions;
          assert all[j] == stored[j] && all[|before.decisions| + i] == decisions[i];
          assert DecisionIds(all)[j] == DecisionIds(all)[|before.decisions| + i];
          return;
        }
        assert DecisionIds(stored + [decisions[i]]) == DecisionIds(stored) + [decisions[i].decisionId];
        runs := runs[runId := runs[runId].(decisions := stored + [decisions[i]])];
      }
      assert decisions[..|decisions|] == decisions;
    }

    method AppendExceptions(runId: string, exceptions: seq<ExceptionCase>) returns (ok: bool)
      requires runId in runs && NoRepeats(CaseIds(runs[runId].exceptions))
      modifies this
      ensures ok == NoRepeats(CaseIds(old(runs)[runId].exceptions + exceptions))
      ensures ok ==> runs == old(runs)[runId := old(runs)[runId].(exceptions := old(runs)[runId].exceptions + exceptions)]
    {
      var before := runs[runId];
      ok := true;
      assert before.exceptions + exceptions[..0] == before.exceptions;
      assert runs == runs[runId := before.(exceptions := before.exceptions + exceptions[..0])];
      for i := 0 to |exceptions|
        invariant ok && runs == old(runs)[runId := before.(exceptions := before.exceptions + exceptions[..i])]
        invariant NoRepeats(CaseIds(before.exceptions + exceptions[..i]))
      {
        var stored := runs[runId].exceptions;
        assert before.exceptions + exceptions[..i + 1] == stored + [exceptions[i]];
        if exceptions[i].caseId in CaseIds(stored) {
          ok := false;
          var j :| 0 <= j < |stored| && stored[j].caseId == exceptions[i].caseId;
          var all := before.exceptions + exceptions;
          assert all[j] == stored[j] && all[|before.exceptions| + i] == exceptions[i];
          assert CaseIds(all)[j] == CaseIds(all)[|before.exceptions| + i];
          return;
        }
        assert CaseIds(stored + [exceptions[i]]) == CaseIds(stored) + [exceptions[i].caseId];
        runs := runs[runId := runs[runId].(exceptions := stored + [exceptions[i]])];
      }
      assert exceptions[..|exceptions|] == exceptions;
    }

    /** Everything is stored, or a fault or a key clash rolls all of it back. */
    method Complete(runId: string, k: KernelResult, fault: bool) returns (ok: bool)
      requires runId in runs
      requires NoRepeats(DecisionIds(runs[runId].decisions)) && NoRepeats(CaseIds(runs[runId].exceptions))
      modifies this
      ensures ok == (!fault && Storable(old(runs)[runId], k))
      ensures runs == if ok then AfterCommit(old(runs), runId, k) else old(runs)
    {
      var saved := runs;
      ok := AppendDecisions(runId, k.decisions);
      if ok {
        ok := AppendExceptions(runId, k.exceptions);
      }
      if ok && runs[runId].summary.None? && !fault {
        runs := runs[runId := Extend(runs[runId], Completed).(summary := Some(SummaryOf(k)))];
        ok := true;
      } else {
        ok := false;
        runs := saved;
      }
    }

    method MarkFailed(runId: string)
      modifies this
      ensures runs == AfterMark(old(runs), runId)
    {
      if Latest(runs, runId) == Some(Reconciling) {
        runs := runs[runId := Extend(runs[runId], Failed)];
      }
    }

    /** One undisturbed call of `run`. The kernel may raise (None), and the commit may fault. */
    method Run(runId: string, policyId: string, versionedId: string, kernel: Option<KernelResult>, fault: bool)
      returns (ok: bool)
      requires Sane(runs)
      modifies this
      ensures !MayStart(old(runs), runId, policyId, versionedId) ==> !ok && runs == old(runs)
      ensures MayStart(old(runs), runId, policyId, versionedId) ==>
        && ok == (kernel.Some? && !fault && Storable(old(runs)[runId], kernel.value))
        && runs == old(runs)[runId := if ok then Stored(Extend(old(runs)[runId], Reconciling), kernel.value)
                                      else Extend(Extend(old(runs)[runId], Reconciling), Failed)]
    {
      ok := Start(runId, policyId, versionedId);
      if !ok {
        return;
      }
      ok := false;
      if kernel.Some? {
        ok := Complete(runId, kernel.value, fault);
      }
      if !ok {
        MarkFailed(runId);
      }
    }
  }

  // ---- what can be stored -------------------------------------------------------------------

  ghost predicate DistinctKeys(ps: seq<Proposal>) {
    forall i, j | 0 <= i < j < |ps| :: ps[i].caseKey != ps[j].caseKey
  }

  lemma {:induction false} KeyOfException(b: Batch, ps: seq<Proposal>, x: ExceptionCase)
    requires x in Exceptions(b, ps)
    ensures exists i :: 0 <= i < |ps| && x.caseId.key == ps[i].caseKey
  {
    ExceptionsComeFromProposals(b, ps, x);
    hide Exceptions, Decide, FirstListed;
    var i :| 0 <= i < |ps| && CreateException(b.runId, ps[i], Decide(b.runId, ps[i], b.policy), b.policy) == Some(x);
    assert x.caseId.key == ps[i].caseKey;
  }

  lemma {:induction false} ExceptionKeys(b: Batch, ps: seq<Proposal>)
    requires DistinctKeys(ps)
    ensures NoRepeats(CaseIds(Exceptions(b, ps)))
  {
    hide Decide, FirstListed;
    if ps != [] {
      var n := |ps| - 1;
      ExceptionKeys(b, ps[..n]);
      var earlier := Exceptions(b, ps[..n]);
      var x := CreateException(b.runId, ps[n], Decide(b.runId, ps[n], b.policy), b.policy);
      if x.Some? {
        assert Exceptions(b, ps) == earlier + [x.value] && x.value.caseId.key == ps[n].caseKey;
        hide Exceptions, CreateException;
        forall j | 0 <= j < |earlier| ensures earlier[j].caseId != x.value.caseId {
          KeyOfException(b, ps[..n], earlier[j]);
        }
        assert CaseIds(earlier + [x.value]) == CaseIds(earlier) + [x.value.caseId];
      } else {
        assert Exceptions(b, ps) == earlier;
      }
    }
  }

  /** Case keys are not namespaced by source, so a bank or ERP record may be named like a settlement;
      the run's result fits the store's primary keys if and only if no two proposals share a key. */
  lemma {:induction false} StorableExactly(b: Batch, ps: seq<Proposal>, r: RunRecord)
    requires r.decisions == [] && r.exceptions == [] && r.summary.None?
    ensures Storable(r, KernelResult(ps, Decisions(b, ps), Exceptions(b, ps))) <==> DistinctKeys(ps)
  {
    var ds := Decisions(b, ps);
    assert r.decisions + ds == ds && r.exceptions + Exceptions(b, ps) == Exceptions(b, ps);
    forall i | 0 <= i < |ps| ensures DecisionIds(ds)[i] == StableId("decision", b.runId, ps[i].caseKey, b.policy.versionedId) {
    }
    hide Decisions, Exceptions;
    if DistinctKeys(ps) {
      ExceptionKeys(b, ps);
    }
  }

  /** Stored ids never repeat. */
  predicate Sane(s: Store) {
    forall runId | runId in s :: NoRepeats(DecisionIds(s[runId].decisions)) && NoRepeats(CaseIds(s[runId].exceptions))
  }
}
