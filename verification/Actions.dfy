/** Human-approved actions: what a snapshot may change, and what their history guarantees. */
module Actions {
  import opened Events
  import opened Transforms
  import opened Ledger

  datatype ActionState = Proposed | Approved | Rejected | Exported | Failed | Cancelled

  function Next(state: ActionState): set<ActionState> {
    match state
    case Proposed => {Approved, Rejected, Cancelled}
    case Approved => {Exported, Failed, Cancelled}
    case Failed => {Approved, Cancelled}
    case _ => {}
  }

  datatype Verdict = Approves | Rejects | RequestsEdit | Defers | RequestsInformation

  /** A truncated digest of run, case and action type, taken to be injective. */
  datatype ActionId = ActionId(runId: string, caseId: string, kind: ActionType)

  /** The ERP file that applying an action would produce, standing in for its digest: the run's ERP rows
      with the journal appended under an id made from the action's. */
  datatype CorrectedFile = CorrectedFile(id: ActionId, journal: seq<JournalLine>, reference: string, postingDate: string)

  /** Idempotency keys. */
  datatype Key = ExportKey(id: ActionId) | CorrectionKey(id: ActionId, file: CorrectedFile)

  datatype Payload = Payload(
    reasonCode: string,
    policyVersion: string,
    reference: string,
    postingDate: string,
    rationale: string,
    clarification: string,
    idempotencyKey: Key
  )

  datatype Action = Action(id: ActionId, state: ActionState, journal: Option<seq<JournalLine>>, payload: Payload, links: seq<Link>)

  /** Requested edits: the two free texts, and the names of any other fields. */
  datatype Edits = Edits(rationale: Option<string>, clarification: Option<string>, others: set<string>)

  /** A receipt; `newRun` is the run that a correction created. */
  datatype Receipt = Receipt(key: Key, at: int, newRun: string)

  datatype ReviewEntry = ReviewEntry(id: ActionId, verdict: Verdict, reviewer: string, at: int)

  datatype Refusal =
    | NoExceptionToAct | DraftRefused | NoSuchAction | FieldNotEditable | NotProposedAnymore | BlankEdit
    | IllegalTransition | NotApproved | NoJournal | NotExported | RunExists | ImportFailed | RunFailed

  // ---- reviews ------------------------------------------------------------------------------

  function NextState(verdict: Verdict): Option<ActionState> {
    match verdict
    case Approves => Some(Approved)
    case Rejects => Some(Rejected)
    case _ => None
  }

  predicate NothingRequested(edits: Edits) {
    edits.rationale.None? && edits.clarification.None? && edits.others == {}
  }

  predicate IsBlank(text: Option<string>) {
    text.Some? && Strip(text.value) == ""
  }

  function Rewritten(current: string, text: Option<string>): string {
    if text.Some? then Strip(text.value) else current
  }

  function Edited(a: Action, edits: Edits): Action {
    a.(payload := a.payload.(
      rationale := Rewritten(a.payload.rationale, edits.rationale),
      clarification := Rewritten(a.payload.clarification, edits.clarification)))
  }

  /** What a review makes of an action, or why it is refused. */
  function Reviewed(a: Action, verdict: Verdict, edits: Edits): Result<Action, Refusal> {
    if edits.others != {} then Err(FieldNotEditable)
    else if !NothingRequested(edits) && a.state != Proposed then Err(NotProposedAnymore)
    else if IsBlank(edits.rationale) || IsBlank(edits.clarification) then Err(BlankEdit)
    else
      var next := NextState(verdict);
      if next.None? then Ok(Edited(a, edits))
      else if a.state == next.value then Ok(a)
      else if next.value !in Next(a.state) then Err(IllegalTransition)
      else Ok(Edited(a, edits).(state := next.value))
  }

  /** Repeating a verdict returns the action as it is. */
  predicate IsRepeat(a: Action, verdict: Verdict) {
    NextState(verdict) == Some(a.state)
  }

  /** Only the two texts are edited, and not to blanks. */
  predicate Permitted(edits: Edits) {
    && edits.others == {}
    && (edits.rationale.Some? ==> Strip(edits.rationale.value) != "")
    && (edits.clarification.Some? ==> Strip(edits.clarification.value) != "")
  }

  /** What a review comes to. A proposed action takes permitted edits, trimmed, and is approved by an approval, rejected
      by a rejection and left proposed by any other verdict; a later one takes no edits and repeats, re-approves after a
      failure, or refuses. */
  lemma {:induction false} ReviewTable(a: Action, verdict: Verdict, edits: Edits)
    ensures var r := Reviewed(a, verdict, edits);
      && (!Permitted(edits) ==> r.Err?)
      && (Permitted(edits) && a.state == Proposed ==>
           r == Ok(a.(state := if verdict == Approves then Approved else if verdict == Rejects then Rejected else Proposed,
                      payload := a.payload.(
                        rationale := if edits.rationale.Some? then Strip(edits.rationale.value) else a.payload.rationale,
                        clarification := if edits.clarification.Some? then Strip(edits.clarification.value) else a.payload.clarification))))
      && (a.state != Proposed && (edits.rationale.Some? || edits.clarification.Some?) ==> r.Err?)
      && (a.state != Proposed && edits == Edits(None, None, {}) ==>
           && (verdict == Approves ==>
                r == if a.state == Approved then Ok(a) else if a.state == Failed then Ok(a.(state := Approved)) else Err(IllegalTransition))
           && (verdict == Rejects ==> r == if a.state == Rejected then Ok(a) else Err(IllegalTransition))
           && (verdict != Approves && verdict != Rejects ==> r == Ok(a)))
  {
    hide Strip;
  }

  // ---- histories ----------------------------------------------------------------------------

  /** Only the two free texts differ. */
  predicate SameButTexts(p: Payload, q: Payload) {
    q == p.(rationale := q.rationale, clarification := q.clarification)
  }

  /** One snapshot follows another: the action itself is fixed, its texts change only while it is still
      proposed, and its state moves along the lifecycle. */
  predicate Follows(a: Action, b: Action) {
    && b.id == a.id && b.journal == a.journal && b.links == a.links
    && SameButTexts(a.payload, b.payload) && (b.payload != a.payload ==> a.state == Proposed)
    && (b.state in Next(a.state) || b.state == a.state == Proposed)
  }

  predicate Begins(id: ActionId, a: Action) {
    && a.id == id && a.state == Proposed && a.payload.idempotencyKey == ExportKey(id)
    && (a.journal.Some? <==> id.kind == JournalExport)
    && (a.journal.Some? ==> JournalAccepted(a.journal.value))
  }

  ghost predicate Lifecycle(id: ActionId, history: seq<Action>) {
    && history != [] && Begins(id, history[0])
    && forall i | 0 <= i < |history| - 1 :: Follows(history[i], history[i + 1])
  }

  function Last(history: seq<Action>): Action
    requires history != []
  {
    history[|history| - 1]
  }

  /** Journal, evidence, identity, idempotency key and every field but the two texts are the same in
      all snapshots of an action. */
  lemma {:induction false} EssenceNeverChanges(id: ActionId, history: seq<Action>, i: nat)
    requires Lifecycle(id, history) && i < |history|
    ensures history[i].id == id && history[i].journal == history[0].journal && history[i].links == history[0].links
    ensures SameButTexts(history[0].payload, history[i].payload) && history[i].payload.idempotencyKey == ExportKey(id)
    ensures history[i].journal.Some? <==> id.kind == JournalExport
    ensures history[i].journal.Some? ==> JournalAccepted(history[i].journal.value)
  {
    hide JournalAccepted;
    if i > 0 {
      EssenceNeverChanges(id, history, i - 1);
      assert Follows(history[i - 1], history[i]);
    }
  }

  /** Once an action has left PROPOSED it never returns, and its texts are final. */
  lemma {:induction false} TextsAreFinal(id: ActionId, history: seq<Action>, i: nat, j: nat)
    requires Lifecycle(id, history) && i <= j < |history| && history[i].state != Proposed
    ensures history[j].state != Proposed && history[j].payload == history[i].payload
    decreases j - i
  {
    if i < j {
      TextsAreFinal(id, history, i, j - 1);
      assert Follows(history[j - 1], history[j]);
    }
  }

  /** An exported action was approved in the snapshot before, and is never changed again. */
  lemma {:induction false} ExportedAfterApproval(id: ActionId, history: seq<Action>, j: nat)
    requires Lifecycle(id, history) && j < |history| && history[j].state == Exported
    ensures j > 0 && history[j - 1].state == Approved && history[j].payload == history[j - 1].payload
    ensures j == |history| - 1
  {
    if j > 0 {
      assert Follows(history[j - 1], history[j]);
    }
    assert j < |history| - 1 ==> Follows(history[j], history[j + 1]);
  }

  lemma {:induction false} LongerLifecycle(id: ActionId, history: seq<Action>, a: Action)
    requires Lifecycle(id, history) && Follows(Last(history), a)
    ensures Lifecycle(id, history + [a])
  {
    hide Follows, Begins;
    var longer := history + [a];
    forall i | 0 <= i < |longer| - 1 ensures Follows(longer[i], longer[i + 1]) {
      assert longer[i] == history[i];
      assert longer[i + 1] == if i + 1 < |history| then history[i + 1] else a;
    }
  }

  /** A recorded review is a legal next snapshot. */
  lemma {:induction false} ReviewFollows(a: Action, verdict: Verdict, edits: Edits)
    requires Reviewed(a, verdict, edits).Ok? && !IsRepeat(a, verdict)
    requires !NothingRequested(edits) || NextState(verdict).Some?
    ensures Follows(a, Reviewed(a, verdict, edits).value)
  {
  }

  // ---- the stored actions -------------------------------------------------------------------

  type Histories = map<ActionId, seq<Action>>

  ghost predicate AllLifecycles(actions: Histories) {
    forall id | id in actions :: Lifecycle(id, actions[id])
  }

  predicate SameCase(a: ActionId, b: ActionId) {
    a.runId == b.runId && a.caseId == b.caseId
  }

  ghost predicate OneActionPerCase(actions: Histories) {
    forall a, b | a in actions && b in actions && SameCase(a, b) :: a == b
  }

  ghost predicate IsExported(actions: Histories, id: ActionId) {
    id in actions && actions[id] != [] && Last(actions[id]).state == Exported
  }

  /** A correction can be applied: the action carries a journal and is exported. */
  predicate Applicable(a: Action) {
    a.journal.Some? && a.state == Exported
  }

  function CorrectionOf(a: Action): Key
    requires a.journal.Some?
  {
    CorrectionKey(a.id, CorrectedFile(a.id, a.journal.value, a.payload.reference, a.payload.postingDate))
  }

  /** There is an export receipt exactly for the exported actions, and every correction receipt is for the
      journal that its exported action carries, and names a run that exists. */
  ghost predicate ReceiptsMatch(actions: Histories, receipts: map<Key, Receipt>, runs: set<string>) {
    && (forall id :: IsExported(actions, id) <==> ExportKey(id) in receipts)
    && (forall key | key in receipts :: receipts[key].key == key)
    && (forall key | key in receipts && key.CorrectionKey? ::
         && IsExported(actions, key.id) && Applicable(Last(actions[key.id]))
         && key == CorrectionOf(Last(actions[key.id])) && receipts[key].newRun in runs)
  }

  lemma {:induction false} ProposingKeeps(actions: Histories, receipts: map<Key, Receipt>, runs: set<string>, a: Action)
    requires AllLifecycles(actions) && OneActionPerCase(actions) && ReceiptsMatch(actions, receipts, runs)
    requires Begins(a.id, a) && forall id | id in actions :: !SameCase(id, a.id)
    ensures var after := actions[a.id := [a]];
      AllLifecycles(after) && OneActionPerCase(after) && ReceiptsMatch(after, receipts, runs)
  {
    hide Begins, Follows;
    var after := actions[a.id := [a]];
    forall id ensures IsExported(after, id) <==> IsExported(actions, id) {
      if id == a.id {
        assert id !in actions by { assert SameCase(a.id, a.id); }
        assert a.state == Proposed by { BeginsProposed(a); }
      }
    }
  }

  lemma BeginsProposed(a: Action)
    requires Begins(a.id, a)
    ensures a.state == Proposed
  {
  }

  lemma {:induction false} ReviewingKeeps(actions: Histories, receipts: map<Key, Receipt>, runs: set<string>, id: ActionId, a: Action)
    requires AllLifecycles(actions) && OneActionPerCase(actions) && ReceiptsMatch(actions, receipts, runs)
    requires id in actions && Follows(Last(actions[id]), a) && a.state != Exported
    ensures var after := actions[id := actions[id] + [a]];
      AllLifecycles(after) && OneActionPerCase(after) && ReceiptsMatch(after, receipts, runs)
  {
    LongerLifecycle(id, actions[id], a);
    assert Last(actions[id]).state != Exported;
    hide Follows, Lifecycle;
    var after := actions[id := actions[id] + [a]];
    forall other ensures IsExported(after, other) <==> IsExported(actions, other) {
    }
  }

  lemma {:induction false} ExportingKeeps(actions: Histories, receipts: map<Key, Receipt>, runs: set<string>, id: ActionId, receipt: Receipt)
    requires AllLifecycles(actions) && OneActionPerCase(actions) && ReceiptsMatch(actions, receipts, runs)
    requires id in actions && Last(actions[id]).state == Approved && receipt.key == ExportKey(id)
    ensures var after := actions[id := actions[id] + [Last(actions[id]).(state := Exported)]];
      AllLifecycles(after) && OneActionPerCase(after) && ReceiptsMatch(after, receipts[ExportKey(id) := receipt], runs)
  {
    var a := Last(actions[id]).(state := Exported);
    assert Follows(Last(actions[id]), a);
    LongerLifecycle(id, actions[id], a);
    hide Follows, Lifecycle;
    var after := actions[id := actions[id] + [a]];
    forall other ensures IsExported(after, other) <==> IsExported(actions, other) || other == id {
    }
    forall key | key in receipts && key.CorrectionKey? ensures key.id != id {
      assert IsExported(actions, key.id);
    }
  }

  lemma {:induction false} ApplyingKeeps(actions: Histories, receipts: map<Key, Receipt>, runs: set<string>, id: ActionId, receipt: Receipt)
    requires AllLifecycles(actions) && ReceiptsMatch(actions, receipts, runs)
    requires id in actions && actions[id] != [] && Applicable(Last(actions[id])) && receipt.key == CorrectionOf(Last(actions[id]))
    requires receipt.newRun in runs
    ensures ReceiptsMatch(actions, receipts[receipt.key := receipt], runs)
  {
    EssenceNeverChanges(id, actions[id], |actions[id]| - 1);
    hide Lifecycle;
  }

  lemma {:induction false} MoreRuns(actions: Histories, receipts: map<Key, Receipt>, runs: set<string>, more: set<string>)
    requires ReceiptsMatch(actions, receipts, runs)
    ensures ReceiptsMatch(actions, receipts, runs + more)
  {
  }
}
