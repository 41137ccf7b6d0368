/** The action service over its append-only store. */
module ActionDesk {
  import opened Events
  import opened Ledger
  import opened Actions

  /** What the review queue says of a case: its exception, if any, as far as an action needs it. */
  datatype Filing = Filing(action: ActionType, reasonCode: string, reference: string, postingDate: string,
                           rationale: string, clarification: string, links: seq<Link>)

  datatype Case = Case(runId: string, caseId: string, filing: Option<Filing>)

  /** The journal templates: refused by a constructor, not available for the reason, or drafted. */
  datatype Draft = Refuses | NoTemplate | Drafted(lines: seq<JournalLine>)

  function KindFor(filing: Filing, draft: Draft): ActionType {
    if filing.action == JournalExport && !draft.Drafted? then ManualReview else filing.action
  }

  function NewAction(c: Case, draft: Draft, policyVersion: string): Action
    requires c.filing.Some?
  {
    var f := c.filing.value;
    var id := ActionId(c.runId, c.caseId, KindFor(f, draft));
    Action(id, Proposed, if id.kind == JournalExport then Some(draft.lines) else None,
           Payload(f.reasonCode, policyVersion, f.reference, f.postingDate, f.rationale, f.clarification, ExportKey(id)), f.links)
  }

  // ---- what each call does ------------------------------------------------------------------

  datatype State = State(actions: Histories, receipts: map<Key, Receipt>, reviews: seq<ReviewEntry>, runs: set<string>)

  /** The latest snapshot of an action. */
  function Current(actions: Histories, id: ActionId): Option<Action> {
    if id in actions && actions[id] != [] then Some(Last(actions[id])) else None
  }

  predicate HasAction(actions: Histories, c: Case) {
    exists id | id in actions :: id.runId == c.runId && id.caseId == c.caseId
  }

  /** At most one action per case, and none without an exception or when the journal is refused. */
  function AfterPropose(s: State, c: Case, draft: Draft, policyVersion: string): State {
    if c.filing.None? || HasAction(s.actions, c) || (c.filing.value.action == JournalExport && draft.Refuses?) then s
    else
      var action := NewAction(c, draft, policyVersion);
      s.(actions := s.actions[action.id := [action]])
  }

  function AfterReview(s: State, id: ActionId, verdict: Verdict, edits: Edits, reviewer: string, at: int): State {
    var before := Current(s.actions, id);
    if before.None? || Reviewed(before.value, verdict, edits).Err? || IsRepeat(before.value, verdict) then s
    else
      var noted := s.(reviews := s.reviews + [ReviewEntry(id, verdict, reviewer, at)]);
      if NothingRequested(edits) && NextState(verdict).None? then noted
      else noted.(actions := s.actions[id := s.actions[id] + [Reviewed(before.value, verdict, edits).value]])
  }

  /** Exporting needs an approval; exporting again gives the first receipt. */
  function ExportAnswer(s: State, id: ActionId, at: int): Result<Receipt, Refusal> {
    var action := Current(s.actions, id);
    if action.None? then Err(NoSuchAction)
    else if ExportKey(id) in s.receipts then Ok(s.receipts[ExportKey(id)])
    else if action.value.state != Approved then Err(NotApproved)
    else Ok(Receipt(ExportKey(id), at, ""))
  }

  function AfterExport(s: State, id: ActionId, at: int): State {
    var r := ExportAnswer(s, id, at);
    if r.Err? || ExportKey(id) in s.receipts then s
    else s.(actions := s.actions[id := s.actions[id] + [Last(s.actions[id]).(state := Exported)]],
            receipts := s.receipts[ExportKey(id) := r.value])
  }

  /** Applying needs an exported journal and a new run; applying again gives the first receipt. */
  function ApplyAnswer(s: State, id: ActionId, newRun: string, importReady: bool, runCompletes: bool, at: int): Result<Receipt, Refusal> {
    var action := Current(s.actions, id);
    if action.None? then Err(NoSuchAction)
    else if action.value.journal.None? then Err(NoJournal)
    else if action.value.state != Exported then Err(NotExported)
    else if CorrectionOf(action.value) in s.receipts then Ok(s.receipts[CorrectionOf(action.value)])
    else if newRun in s.runs then Err(RunExists)
    else if !importReady then Err(ImportFailed)
    else if !runCompletes then Err(RunFailed)
    else Ok(Receipt(CorrectionOf(action.value), at, newRun))
  }

  function AfterApply(s: State, id: ActionId, newRun: string, importReady: bool, runCompletes: bool, at: int): State {
    var r := ApplyAnswer(s, id, newRun, importReady, runCompletes, at);
    if r in {Err(ImportFailed), Err(RunFailed)} then s.(runs := s.runs + {newRun})
    else if r.Ok? && r.value.key !in s.receipts then s.(receipts := s.receipts[r.value.key := r.value], runs := s.runs + {newRun})
    else s
  }

  ghost predicate Sound(s: State) {
    AllLifecycles(s.actions) && OneActionPerCase(s.actions) && ReceiptsMatch(s.actions, s.receipts, s.runs)
  }

  /** What a verdict makes of an action; refuses forbidden edits and transitions, and returns a repeat as it is. */
  method Judge(before: Action, verdict: Verdict, edits: Edits) returns (r: Result<Action, Refusal>)
    ensures r == Reviewed(before, verdict, edits)
  {
    if edits.others != {} {
      return Err(FieldNotEditable);
    }
    var action := before;
    if !NothingRequested(edits) {
      if before.state != Proposed {
        return Err(NotProposedAnymore);
      }
      if IsBlank(edits.rationale) || IsBlank(edits.clarification) {
        return Err(BlankEdit);
      }
      action := Edited(before, edits);
    }
    var next := NextState(verdict);
    if next.Some? {
      if action.state == next.value {
        return Ok(before);
      }
      if next.value !in Next(action.state) {
        return Err(IllegalTransition);
      }
      action := action.(state := next.value);
    }
    r := Ok(action);
  }

  class Desk {
    var actions: Histories
    var receipts: map<Key, Receipt>
    var reviews: seq<ReviewEntry>
    var runs: set<string>
    const policyVersion: string

    ghost function Contents(): State
      reads this
    {
      State(actions, receipts, reviews, runs)
    }

    ghost predicate Valid()
      reads this
    {
      Sound(Contents())
    }

    constructor (policyVersion: string, runs: set<string>)
      ensures Valid() && actions == map[] && receipts == map[] && reviews == [] && this.runs == runs
    {
      actions, receipts, reviews := map[], map[], [];
      this.runs, this.policyVersion := runs, policyVersion;
    }

    /** At most one action per case: proposing again returns the one there is. */
    method Propose(c: Case, draft: Draft) returns (r: Result<Action, Refusal>)
      requires Valid() && (draft.Drafted? ==> JournalAccepted(draft.lines))
      modifies this
      ensures Valid() && Contents() == AfterPropose(old(Contents()), c, draft, policyVersion)
      ensures c.filing.None? ==> r == Err(NoExceptionToAct)
      ensures c.filing.Some? && HasAction(old(actions), c) ==>
        && r.Ok? && Current(actions, r.value.id) == Some(r.value) && r.value.id.runId == c.runId && r.value.id.caseId == c.caseId
      ensures c.filing.Some? && !HasAction(old(actions), c) ==>
        r == if c.filing.value.action == JournalExport && draft.Refuses? then Err(DraftRefused)
             else Ok(NewAction(c, draft, policyVersion))
    {
      hide JournalAccepted;
      if c.filing.None? {
        return Err(NoExceptionToAct);
      }
      if exists id | id in actions :: id.runId == c.runId && id.caseId == c.caseId {
        var id :| id in actions && id.runId == c.runId && id.caseId == c.caseId;
        assert actions[id] != [] by { LastOf(actions, id); }
        LastOf(actions, id);
        return Ok(Last(actions[id]));
      }
      if c.filing.value.action == JournalExport && draft.Refuses? {
        return Err(DraftRefused);
      }
      var action := NewAction(c, draft, policyVersion);
      ProposingKeeps(actions, receipts, runs, action);
      actions := actions[action.id := [action]];
      r := Ok(action);
    }

    /** Records a verdict; edits touch the two free texts of an action that is still proposed. */
    method Review(id: ActionId, verdict: Verdict, edits: Edits, reviewer: string, at: int)
      returns (r: Result<Action, Refusal>)
      requires Valid()
      modifies this
      ensures Valid() && Contents() == AfterReview(old(Contents()), id, verdict, edits, reviewer, at)
      ensures r == if Current(old(actions), id).None? then Err(NoSuchAction)
                   else Reviewed(Current(old(actions), id).value, verdict, edits)
    {
      hide AllLifecycles, OneActionPerCase, ReceiptsMatch;
      if id !in actions {
        return Err(NoSuchAction);
      }
      LastOf(actions, id);
      var before := Last(actions[id]);
      r := Judge(before, verdict, edits);
      hide Reviewed, Follows;
      if r.Err? || IsRepeat(before, verdict) {
        return;
      }
      if !NothingRequested(edits) || NextState(verdict).Some? {
        ReviewFollows(before, verdict, edits);
        NeverExports(before, verdict, edits);
        ReviewingKeeps(actions, receipts, runs, id, r.value);
        actions := actions[id := actions[id] + [r.value]];
      }
      reviews := reviews + [ReviewEntry(id, verdict, reviewer, at)];
    }

    /** Exports an approved action once; exporting again returns the first receipt. */
    method Export(id: ActionId, at: int) returns (r: Result<Receipt, Refusal>)
      requires Valid()
      modifies this
      ensures Valid() && r == ExportAnswer(old(Contents()), id, at) && Contents() == AfterExport(old(Contents()), id, at)
    {
      if id !in actions {
        return Err(NoSuchAction);
      }
      LastOf(actions, id);
      var action := Last(actions[id]);
      var key := action.payload.idempotencyKey;
      if key in receipts {
        return Ok(receipts[key]);
      }
      if action.state != Approved {
        return Err(NotApproved);
      }
      var receipt := Receipt(key, at, "");
      ExportingKeeps(actions, receipts, runs, id, receipt);
      actions := actions[id := actions[id] + [action.(state := Exported)]];
      receipts := receipts[key := receipt];
      r := Ok(receipt);
    }

    /** Applies an exported journal to a new run once; applying it again returns the first receipt and
        creates no run. The import may fail validation, and the new run may fail. */
    method Apply(id: ActionId, newRun: string, importReady: bool, runCompletes: bool, at: int) returns (r: Result<Receipt, Refusal>)
      requires Valid()
      modifies this
      ensures Valid() && r == ApplyAnswer(old(Contents()), id, newRun, importReady, runCompletes, at)
      ensures Contents() == AfterApply(old(Contents()), id, newRun, importReady, runCompletes, at)
    {
      if id !in actions {
        return Err(NoSuchAction);
      }
      LastOf(actions, id);
      var action := Last(actions[id]);
      if action.journal.None? {
        return Err(NoJournal);
      }
      if action.state != Exported {
        return Err(NotExported);
      }
      var key := CorrectionOf(action);
      if key in receipts {
        return Ok(receipts[key]);
      }
      if newRun in runs {
        return Err(RunExists);
      }
      MoreRuns(actions, receipts, runs, {newRun});
      runs := runs + {newRun};
      if !importReady {
        return Err(ImportFailed);
      }
      if !runCompletes {
        return Err(RunFailed);
      }
      var receipt := Receipt(key, at, newRun);
      ApplyingKeeps(actions, receipts, runs, id, receipt);
      receipts := receipts[key := receipt];
      r := Ok(receipt);
    }
  }

  lemma {:induction false} LastOf(actions: Histories, id: ActionId)
    requires AllLifecycles(actions) && id in actions
    ensures actions[id] != [] && Last(actions[id]).id == id && Last(actions[id]).payload.idempotencyKey == ExportKey(id)
  {
    assert Lifecycle(id, actions[id]);
    EssenceNeverChanges(id, actions[id], |actions[id]| - 1);
  }

  // ---- any sequence of calls ----------------------------------------------------------------

  datatype Call =
    | Proposes(c: Case, draft: Draft)
    | Reviews(id: ActionId, verdict: Verdict, edits: Edits, reviewer: string, at: int)
    | Exports(id: ActionId, at: int)
    | Applies(id: ActionId, newRun: string, importReady: bool, runCompletes: bool, at: int)

  function After(s: State, call: Call, policyVersion: string): State {
    match call
    case Proposes(c, draft) => AfterPropose(s, c, draft, policyVersion)
    case Reviews(id, verdict, edits, reviewer, at) => AfterReview(s, id, verdict, edits, reviewer, at)
    case Exports(id, at) => AfterExport(s, id, at)
    case Applies(id, newRun, importReady, runCompletes, at) => AfterApply(s, id, newRun, importReady, runCompletes, at)
  }

  function Serve(s: State, calls: seq<Call>, policyVersion: string): State {
    if calls == [] then s else After(Serve(s, calls[..|calls| - 1], policyVersion), calls[|calls| - 1], policyVersion)
  }

  /** Drafts come from constructors that accepted them. */
  ghost predicate Drawn(call: Call) {
    call.Proposes? && call.draft.Drafted? ==> JournalAccepted(call.draft.lines)
  }

  lemma {:induction false} ProposeKeeps(s: State, c: Case, draft: Draft, policyVersion: string)
    requires Sound(s) && Drawn(Proposes(c, draft))
    ensures Sound(AfterPropose(s, c, draft, policyVersion))
  {
    hide JournalAccepted, AllLifecycles, OneActionPerCase, ReceiptsMatch;
    if AfterPropose(s, c, draft, policyVersion) != s {
      ProposingKeeps(s.actions, s.receipts, s.runs, NewAction(c, draft, policyVersion));
    }
  }

  lemma {:induction false} ReviewKeeps(s: State, id: ActionId, verdict: Verdict, edits: Edits, reviewer: string, at: int)
    requires Sound(s)
    ensures Sound(AfterReview(s, id, verdict, edits, reviewer, at))
  {
    var before := Current(s.actions, id);
    if before.Some? && Reviewed(before.value, verdict, edits).Ok? && !IsRepeat(before.value, verdict)
       && (!NothingRequested(edits) || NextState(verdict).Some?) {
      ReviewFollows(before.value, verdict, edits);
      NeverExports(before.value, verdict, edits);
      hide Reviewed, IsRepeat, NothingRequested, Follows, AllLifecycles, OneActionPerCase, ReceiptsMatch;
      ReviewingKeeps(s.actions, s.receipts, s.runs, id, Reviewed(before.value, verdict, edits).value);
    } else {
      hide Reviewed, IsRepeat, NothingRequested, AllLifecycles, OneActionPerCase, ReceiptsMatch;
    }
  }

  lemma NeverExports(a: Action, verdict: Verdict, edits: Edits)
    requires Reviewed(a, verdict, edits).Ok? && !IsRepeat(a, verdict) && (!NothingRequested(edits) || NextState(verdict).Some?)
    ensures Reviewed(a, verdict, edits).value.state != Exported
  {
  }

  lemma {:induction false} ExportKeeps(s: State, id: ActionId, at: int)
    requires Sound(s)
    ensures Sound(AfterExport(s, id, at))
  {
    hide AllLifecycles, OneActionPerCase, ReceiptsMatch;
    if AfterExport(s, id, at) != s {
      ExportingKeeps(s.actions, s.receipts, s.runs, id, Receipt(ExportKey(id), at, ""));
    }
  }

  lemma {:induction false} ApplyKeeps(s: State, id: ActionId, newRun: string, importReady: bool, runCompletes: bool, at: int)
    requires Sound(s)
    ensures Sound(AfterApply(s, id, newRun, importReady, runCompletes, at))
  {
    hide AllLifecycles, OneActionPerCase, ReceiptsMatch;
    var r := ApplyAnswer(s, id, newRun, importReady, runCompletes, at);
    MoreRuns(s.actions, s.receipts, s.runs, {newRun});
    if r.Ok? && r.value.key !in s.receipts {
      LastOf(s.actions, id);
      ApplyingKeeps(s.actions, s.receipts, s.runs + {newRun}, id, r.value);
    }
  }

  lemma {:induction false} EveryCallKeeps(s: State, call: Call, policyVersion: string)
    requires Sound(s) && Drawn(call)
    ensures Sound(After(s, call, policyVersion))
  {
    hide Sound, Drawn, AfterPropose, AfterReview, AfterExport, AfterApply;
    match call {
      case Proposes(c, draft) => ProposeKeeps(s, c, draft, policyVersion);
      case Reviews(id, verdict, edits, reviewer, at) => ReviewKeeps(s, id, verdict, edits, reviewer, at);
      case Exports(id, at) => ExportKeeps(s, id, at);
      case Applies(id, newRun, importReady, runCompletes, at) => ApplyKeeps(s, id, newRun, importReady, runCompletes, at);
    }
  }

  /** Whatever calls are made, in whatever order: every action has a legal history, no case has two
      actions, and receipts match the exported actions. */
  lemma {:induction false} EveryDeskIsSound(s: State, calls: seq<Call>, policyVersion: string)
    requires Sound(s) && forall call | call in calls :: Drawn(call)
    ensures Sound(Serve(s, calls, policyVersion))
  {
    hide Sound, Drawn, After;
    if calls != [] {
      EveryDeskIsSound(s, calls[..|calls| - 1], policyVersion);
      EveryCallKeeps(Serve(s, calls[..|calls| - 1], policyVersion), calls[|calls| - 1], policyVersion);
    }
  }

  /** `t` only adds to `s`: longer histories, more receipts, reviews and runs. */
  ghost predicate Grows(s: State, t: State) {
    && (forall id | id in s.actions :: id in t.actions && s.actions[id] <= t.actions[id])
    && (forall key | key in s.receipts :: key in t.receipts && t.receipts[key] == s.receipts[key])
    && s.reviews <= t.reviews && s.runs <= t.runs
  }

  lemma {:induction false} CallGrows(s: State, call: Call, policyVersion: string)
    requires Sound(s)
    ensures Grows(s, After(s, call, policyVersion))
  {
    hide Sound, Reviewed, IsRepeat, NothingRequested, KindFor;
    match call {
      case Proposes(c, draft) => {
        if AfterPropose(s, c, draft, policyVersion) != s {
          var id := NewAction(c, draft, policyVersion).id;
          assert id !in s.actions by { assert id.runId == c.runId && id.caseId == c.caseId; }
        }
      }
      case Reviews(_, _, _, _, _) =>
      case Exports(_, _) =>
      case Applies(_, _, _, _, _) =>
    }
  }

  /** Nothing is ever taken back: snapshots, receipts, review entries and runs only accumulate. */
  lemma {:induction false} NothingIsTakenBack(s: State, calls: seq<Call>, policyVersion: string)
    requires Sound(s) && forall call | call in calls :: Drawn(call)
    ensures Grows(s, Serve(s, calls, policyVersion))
  {
    hide Sound, Drawn, After;
    if calls != [] {
      var init := calls[..|calls| - 1];
      NothingIsTakenBack(s, init, policyVersion);
      EveryDeskIsSound(s, init, policyVersion);
      CallGrows(Serve(s, init, policyVersion), calls[|calls| - 1], policyVersion);
      hide Serve;
    }
  }

  /** Once an action is exported its history is closed, whatever is called afterwards. */
  lemma {:induction false} ExportedIsClosed(s: State, calls: seq<Call>, policyVersion: string, id: ActionId)
    requires Sound(s) && (forall call | call in calls :: Drawn(call)) && IsExported(s.actions, id)
    ensures var t := Serve(s, calls, policyVersion);
      id in t.actions && t.actions[id] == s.actions[id]
  {
    var t := Serve(s, calls, policyVersion);
    EveryDeskIsSound(s, calls, policyVersion);
    NothingIsTakenBack(s, calls, policyVersion);
    hide Serve;
    assert Lifecycle(id, t.actions[id]);
    ExportedAfterApproval(id, t.actions[id], |s.actions[id]| - 1);
  }

  /** Exporting again, after any calls in between and at any later time, returns the first receipt and
      changes nothing. */
  lemma {:induction false} ExportHappensOnce(s: State, id: ActionId, first: int, calls: seq<Call>, policyVersion: string, again: int)
    requires Sound(s) && (forall call | call in calls :: Drawn(call)) && ExportAnswer(s, id, first).Ok?
    ensures var t := Serve(AfterExport(s, id, first), calls, policyVersion);
      ExportAnswer(t, id, again) == ExportAnswer(s, id, first) && AfterExport(t, id, again) == t
  {
    hide Sound, Serve, Drawn, Grows, AfterExport, ExportAnswer;
    var exported := AfterExport(s, id, first);
    ExportKeeps(s, id, first);
    ExportedHasReceipt(s, id, first);
    NothingIsTakenBack(exported, calls, policyVersion);
    SecondExport(exported, Serve(exported, calls, policyVersion), id, again);
  }

  lemma {:induction false} ExportedHasReceipt(s: State, id: ActionId, at: int)
    requires Sound(s) && ExportAnswer(s, id, at).Ok?
    ensures var t := AfterExport(s, id, at);
      && id in t.actions && t.actions[id] != [] && ExportKey(id) in t.receipts && ExportAnswer(s, id, at) == Ok(t.receipts[ExportKey(id)])
  {
    hide AllLifecycles, OneActionPerCase, ReceiptsMatch;
  }

  lemma {:induction false} SecondExport(s: State, t: State, id: ActionId, at: int)
    requires Grows(s, t) && id in s.actions && s.actions[id] != [] && ExportKey(id) in s.receipts
    ensures ExportAnswer(t, id, at) == Ok(s.receipts[ExportKey(id)]) && AfterExport(t, id, at) == t
  {
    assert id in t.actions && t.actions[id] != [];
    assert ExportKey(id) in t.receipts && t.receipts[ExportKey(id)] == s.receipts[ExportKey(id)];
    hide Grows;
  }

  /** Applying again, after any calls in between, to whatever run and however that would go, returns the
      first receipt and changes nothing: a correction creates one run. */
  lemma {:induction false} ApplyHappensOnce(s: State, id: ActionId, newRun: string, at: int, calls: seq<Call>, policyVersion: string,
                                            otherRun: string, ready: bool, completes: bool, again: int)
    requires Sound(s) && (forall call | call in calls :: Drawn(call)) && ApplyAnswer(s, id, newRun, true, true, at).Ok?
    ensures var t := Serve(AfterApply(s, id, newRun, true, true, at), calls, policyVersion);
      && ApplyAnswer(t, id, otherRun, ready, completes, again) == ApplyAnswer(s, id, newRun, true, true, at)
      && AfterApply(t, id, otherRun, ready, completes, again) == t
  {
    hide Sound, Serve, Drawn, CorrectionOf, AfterApply, ApplyAnswer, Grows;
    var applied := AfterApply(s, id, newRun, true, true, at);
    ApplyKeeps(s, id, newRun, true, true, at);
    AppliedHasReceipt(s, id, newRun, at);
    NothingIsTakenBack(applied, calls, policyVersion);
    EveryDeskIsSound(applied, calls, policyVersion);
    ExportedIsClosed(applied, calls, policyVersion, id);
    KeepsReceipt(applied, Serve(applied, calls, policyVersion), CorrectionOf(Last(s.actions[id])));
    SecondApply(Serve(applied, calls, policyVersion), id, otherRun, ready, completes, again);
  }

  lemma {:induction false} AppliedHasReceipt(s: State, id: ActionId, newRun: string, at: int)
    requires Sound(s) && ApplyAnswer(s, id, newRun, true, true, at).Ok?
    ensures var t := AfterApply(s, id, newRun, true, true, at);
      && t.actions == s.actions && id in s.actions && s.actions[id] != [] && Applicable(Last(s.actions[id])) && IsExported(t.actions, id)
      && CorrectionOf(Last(s.actions[id])) in t.receipts
      && ApplyAnswer(s, id, newRun, true, true, at) == Ok(t.receipts[CorrectionOf(Last(s.actions[id]))])
  {
    hide AllLifecycles, OneActionPerCase, CorrectionOf;
  }

  lemma KeepsReceipt(s: State, t: State, key: Key)
    requires Grows(s, t) && key in s.receipts
    ensures key in t.receipts && t.receipts[key] == s.receipts[key]
  {
  }

  lemma {:induction false} SecondApply(t: State, id: ActionId, newRun: string, ready: bool, completes: bool, at: int)
    requires Sound(t) && id in t.actions && t.actions[id] != [] && Applicable(Last(t.actions[id]))
    requires CorrectionOf(Last(t.actions[id])) in t.receipts
    ensures ApplyAnswer(t, id, newRun, ready, completes, at) == Ok(t.receipts[CorrectionOf(Last(t.actions[id]))])
    ensures AfterApply(t, id, newRun, ready, completes, at) == t
  {
    hide AllLifecycles, OneActionPerCase, CorrectionOf;
  }
}
