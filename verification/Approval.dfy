/** What review entries say about exports: none without an approval, none after a rejection. */
module Approval {
  import opened Events
  import opened Actions
  import opened ActionDesk

  ghost predicate Entered(s: State, id: ActionId, verdict: Verdict) {
    exists i :: 0 <= i < |s.reviews| && s.reviews[i].id == id && s.reviews[i].verdict == verdict
  }

  ghost predicate IsIn(s: State, id: ActionId, state: ActionState) {
    Current(s.actions, id).Some? && Current(s.actions, id).value.state == state
  }

  /** A review that is not refused is noted with its verdict, its reviewer and its time, unless it repeats the state
      that the action already has; a snapshot is added by an approval, a rejection or an edit, and nothing else changes. */
  lemma {:induction false} ReviewIsNoted(s: State, id: ActionId, verdict: Verdict, edits: Edits, reviewer: string, at: int)
    requires Current(s.actions, id).Some? && Reviewed(Current(s.actions, id).value, verdict, edits).Ok?
    ensures var t, a := AfterReview(s, id, verdict, edits, reviewer, at), Current(s.actions, id).value;
      if (verdict == Approves && a.state == Approved) || (verdict == Rejects && a.state == Rejected) then t == s
      else
        && t.reviews == s.reviews + [ReviewEntry(id, verdict, reviewer, at)] && t.receipts == s.receipts && t.runs == s.runs
        && t.actions == if verdict in {Approves, Rejects} || edits != Edits(None, None, {})
                        then s.actions[id := s.actions[id] + [Reviewed(a, verdict, edits).value]] else s.actions
  {
    hide Edited;
  }

  // ---- the other calls ----------------------------------------------------------------------

  /** A proposed action asks for what the exception recommends, or for a manual review when a journal was recommended
      that no template drafts; it carries the drafted lines exactly then, and the texts of the filing. */
  lemma NewActionTable(c: Case, draft: Draft, policyVersion: string)
    requires c.filing.Some?
    ensures var a, f := NewAction(c, draft, policyVersion), c.filing.value;
      && a.id.runId == c.runId && a.id.caseId == c.caseId && a.state == Proposed && a.links == f.links
      && (f.action != JournalExport ==> a.id.kind == f.action && a.journal == None)
      && (f.action == JournalExport && draft.Drafted? ==> a.id.kind == JournalExport && a.journal == Some(draft.lines))
      && (f.action == JournalExport && !draft.Drafted? ==> a.id.kind == ManualReview && a.journal == None)
      && a.payload.reasonCode == f.reasonCode && a.payload.policyVersion == policyVersion && a.payload.reference == f.reference
      && a.payload.postingDate == f.postingDate && a.payload.rationale == f.rationale && a.payload.clarification == f.clarification
  {
  }

  /** Exporting: the first receipt again if there is one, else a new one for an approved action, which becomes exported;
      anything else is refused and changes nothing. */
  lemma {:induction false} ExportTable(s: State, id: ActionId, at: int)
    requires Sound(s)
    ensures var r, t := ExportAnswer(s, id, at), AfterExport(s, id, at);
      if IsExported(s.actions, id) then t == s && ExportKey(id) in s.receipts && r == Ok(s.receipts[ExportKey(id)])
      else if IsIn(s, id, Approved) then
        && r == Ok(Receipt(ExportKey(id), at, "")) && IsIn(t, id, Exported)
        && t == s.(actions := s.actions[id := s.actions[id] + [Last(s.actions[id]).(state := Exported)]],
                   receipts := s.receipts[ExportKey(id) := r.value])
      else r.Err? && t == s
  {
    hide AllLifecycles, OneActionPerCase;
  }

  /** Applying an exported journal: the first receipt again if there is one, else a run of that name must be new, and is
      created; a receipt is given exactly when its files validate and it completes. */
  lemma {:induction false} ApplyTable(s: State, id: ActionId, newRun: string, importReady: bool, runCompletes: bool, at: int)
    requires Sound(s)
    ensures var r, t := ApplyAnswer(s, id, newRun, importReady, runCompletes, at), AfterApply(s, id, newRun, importReady, runCompletes, at);
      if !IsExported(s.actions, id) || Last(s.actions[id]).journal.None? then r.Err? && t == s
      else
        var a := Last(s.actions[id]);
        var key := CorrectionKey(a.id, CorrectedFile(a.id, a.journal.value, a.payload.reference, a.payload.postingDate));
        if key in s.receipts then r == Ok(s.receipts[key]) && t == s
        else if newRun in s.runs then r == Err(RunExists) && t == s
        else if importReady && runCompletes then
          r == Ok(Receipt(key, at, newRun)) && t == s.(receipts := s.receipts[key := r.value], runs := s.runs + {newRun})
        else r.Err? && t == s.(runs := s.runs + {newRun})
  {
    hide AllLifecycles, OneActionPerCase;
  }

  // ---- what entries mean --------------------------------------------------------------------

  /** Approved and exported actions have an approval, rejected ones are still rejected, and only stored actions have
      entries. */
  ghost predicate EntriesMatch(s: State) {
    && (forall i | 0 <= i < |s.reviews| :: Current(s.actions, s.reviews[i].id).Some?)
    && (forall id :: IsIn(s, id, Approved) || IsIn(s, id, Exported) ==> Entered(s, id, Approves))
    && (forall id :: Entered(s, id, Rejects) ==> IsIn(s, id, Rejected))
  }

  lemma {:induction false} ProposeKeepsEntries(s: State, c: Case, draft: Draft, policyVersion: string)
    requires EntriesMatch(s) && forall id | id in s.actions :: s.actions[id] != []
    ensures EntriesMatch(AfterPropose(s, c, draft, policyVersion))
  {
    var t := AfterPropose(s, c, draft, policyVersion);
    if t != s {
      var action := NewAction(c, draft, policyVersion);
      assert action.id !in s.actions && action.state == Proposed;
      forall id ensures Current(t.actions, id) == if id == action.id then Some(action) else Current(s.actions, id) {
      }
      hide NewAction, HasAction, Current;
      forall id, verdict ensures Entered(t, id, verdict) <==> Entered(s, id, verdict) {
      }
    }
  }

  lemma {:induction false} EntriesGrow(s: State, t: State, entry: ReviewEntry, id: ActionId, verdict: Verdict)
    requires t.reviews == s.reviews + [entry]
    ensures Entered(t, id, verdict) <==> Entered(s, id, verdict) || (entry.id == id && entry.verdict == verdict)
  {
    if i :| 0 <= i < |s.reviews| && s.reviews[i].id == id && s.reviews[i].verdict == verdict {
      assert t.reviews[i] == s.reviews[i];
    }
    if entry.id == id && entry.verdict == verdict {
      assert t.reviews[|s.reviews|] == entry;
    }
  }

  lemma {:induction false} ReviewKeepsEntries(s: State, id: ActionId, verdict: Verdict, edits: Edits, reviewer: string, at: int)
    requires EntriesMatch(s)
    ensures EntriesMatch(AfterReview(s, id, verdict, edits, reviewer, at))
  {
    var t := AfterReview(s, id, verdict, edits, reviewer, at);
    if t != s {
      var a := Current(s.actions, id).value;
      ReviewTable(a, verdict, edits);
      ReviewIsNoted(s, id, verdict, edits, reviewer, at);
      var entry := ReviewEntry(id, verdict, reviewer, at);
      hide AfterReview, Reviewed;
      forall other, v ensures Entered(t, other, v) <==> Entered(s, other, v) || (entry.id == other && entry.verdict == v) {
        EntriesGrow(s, t, entry, other, v);
      }
      forall other | other != id ensures Current(t.actions, other) == Current(s.actions, other) {
      }
      assert Current(t.actions, id).Some?;
      assert IsIn(t, id, Exported) ==> IsIn(s, id, Exported);
      hide Entered;
    }
  }

  lemma {:induction false} ExportKeepsEntries(s: State, id: ActionId, at: int)
    requires EntriesMatch(s)
    ensures EntriesMatch(AfterExport(s, id, at))
  {
    var t := AfterExport(s, id, at);
    forall other | other != id ensures Current(t.actions, other) == Current(s.actions, other) {
    }
    forall other, verdict ensures Entered(t, other, verdict) <==> Entered(s, other, verdict) {
    }
  }

  lemma {:induction false} CallKeepsEntries(s: State, call: Call, policyVersion: string)
    requires EntriesMatch(s) && Sound(s)
    ensures EntriesMatch(After(s, call, policyVersion))
  {
    hide EntriesMatch, AfterPropose, AfterReview, AfterExport;
    match call {
      case Proposes(c, draft) => {
        forall id | id in s.actions ensures s.actions[id] != [] {
          LastOf(s.actions, id);
        }
        ProposeKeepsEntries(s, c, draft, policyVersion);
      }
      case Reviews(id, verdict, edits, reviewer, at) => ReviewKeepsEntries(s, id, verdict, edits, reviewer, at);
      case Exports(id, at) => ExportKeepsEntries(s, id, at);
      case Applies(id, newRun, importReady, runCompletes, at) => ApplyKeepsEntries(s, id, newRun, importReady, runCompletes, at);
    }
  }

  lemma {:induction false} ApplyKeepsEntries(s: State, id: ActionId, newRun: string, importReady: bool, runCompletes: bool, at: int)
    requires EntriesMatch(s)
    ensures EntriesMatch(AfterApply(s, id, newRun, importReady, runCompletes, at))
  {
    hide ApplyAnswer;
    var t := AfterApply(s, id, newRun, importReady, runCompletes, at);
    assert t.actions == s.actions && t.reviews == s.reviews;
    forall other, verdict ensures Entered(t, other, verdict) <==> Entered(s, other, verdict) {
    }
  }

  /** A desk that has served nothing yet. */
  function Opened(runs: set<string>): State {
    State(map[], map[], [], runs)
  }

  lemma {:induction false} ServedEntriesMatch(runs: set<string>, calls: seq<Call>, policyVersion: string)
    requires forall call | call in calls :: Drawn(call)
    ensures EntriesMatch(Serve(Opened(runs), calls, policyVersion))
  {
    hide Sound, Drawn, After;
    if calls != [] {
      var init := calls[..|calls| - 1];
      ServedEntriesMatch(runs, init, policyVersion);
      OpenedIsSound(runs);
      EveryDeskIsSound(Opened(runs), init, policyVersion);
      CallKeepsEntries(Serve(Opened(runs), init, policyVersion), calls[|calls| - 1], policyVersion);
      hide EntriesMatch;
    }
  }

  lemma OpenedIsSound(runs: set<string>)
    ensures Sound(Opened(runs))
  {
  }

  /** Over any sequence of calls: whatever is exported was approved by somebody, and what somebody rejected is never
      exported. */
  lemma {:induction false} ExportNeedsApproval(runs: set<string>, calls: seq<Call>, policyVersion: string, id: ActionId)
    requires forall call | call in calls :: Drawn(call)
    ensures var s := Serve(Opened(runs), calls, policyVersion);
      && (IsExported(s.actions, id) ==> Entered(s, id, Approves))
      && (Entered(s, id, Rejects) ==> !IsExported(s.actions, id))
  {
    hide Drawn, Serve;
    ServedEntriesMatch(runs, calls, policyVersion);
    var s := Serve(Opened(runs), calls, policyVersion);
    if IsExported(s.actions, id) {
      assert IsIn(s, id, Exported);
    }
  }
}
