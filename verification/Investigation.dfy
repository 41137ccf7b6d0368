/** Investigating an exception with an untrusted model: two calls at most, one result attached. */
module Investigation {
  import opened Events
  import opened Selection
  import opened Transforms
  import opened Context
  import opened Proposals
  import opened SettlementRule
  import opened Gate
  import opened Pipeline
  import opened Partition
  import opened Totality
  import opened Join
  import opened Advice

  /** What a call of the model comes to: an answer, an outage, an error of the kinds that are caught, or
      any other error. */
  datatype Answer =
    | Response(payload: Json, modelVersion: string, latency: int)
    | Unavailable
    | Faulty
    | Crash

  datatype Refusal = NothingToInvestigate | ModelCrashed | FallbackRefused

  /** What the review queue has of a case: its rows, and its exception if it has one. */
  datatype CaseFile = CaseFile(runId: string, events: seq<Event>, exception: Option<ExceptionCase>)

  function CitedIds(links: seq<Link>): seq<string> {
    if links == [] then []
    else CitedIds(links[..|links| - 1]) + (if links[|links| - 1].eventId != "" then [links[|links| - 1].eventId] else [])
  }

  /** The wording of the note is fixed text, stood in for by two short ones. */
  const FALLBACK_TITLE: string := "blocked"
  const FALLBACK_NOTE: string := "unchanged"

  /** The deterministic note for a case, citing all its evidence. */
  function Fallback(c: Case, failureCode: string, at: int): Advisory {
    Advisory(c.runId, c.exception.caseId, DeterministicFallback, FALLBACK_TITLE, FALLBACK_NOTE, CitedIds(c.exception.links),
             0, c.exception.treatment.action, true, None, "", 0, failureCode, at)
  }

  const OUTAGE: string := "MODEL_UNAVAILABLE"
  const INVALID: string := "MODEL_OUTPUT_INVALID"

  // ---- the reference definition -------------------------------------------------------------

  function ValidAnswer(c: Case, answer: Answer, earlier: int, at: int): Option<Advisory> {
    if answer.Response? then Validated(c, answer.payload, answer.modelVersion, earlier + answer.latency, at) else None
  }

  /** Is the model asked a second time? */
  predicate Retries(c: Case, first: Answer, at: int) {
    first.Response? && ValidAnswer(c, first, 0, at).None?
  }

  /** The answer that decides: the retry if there is one. */
  function LastAnswer(c: Case, first: Answer, second: Answer, at: int): Answer {
    if Retries(c, first, at) then second else first
  }

  function Investigated(c: Case, first: Answer, second: Answer, at: int): Result<Advisory, Refusal> {
    var last := LastAnswer(c, first, second, at);
    var advice := ValidAnswer(c, last, if Retries(c, first, at) then first.latency else 0, at);
    if last.Crash? then Err(ModelCrashed)
    else if advice.Some? then Ok(advice.value)
    else
      var note := Fallback(c, if last.Unavailable? then OUTAGE else INVALID, at);
      if AdvisoryAccepted(note) then Ok(note) else Err(FallbackRefused)
  }

  class Investigator {
    var attached: seq<Advisory>
    var calls: nat

    constructor ()
      ensures attached == [] && calls == 0
    {
      attached, calls := [], 0;
    }

    /** Asks the model, asks once more if the answer is rejected, and falls back to the deterministic note;
        attaches the one result. `first` and `second` are whatever the model would answer. */
    method Investigate(file: CaseFile, first: Answer, second: Answer, at: int) returns (r: Result<Advisory, Refusal>)
      modifies this
      ensures file.exception.None? ==> r == Err(NothingToInvestigate) && attached == old(attached) && calls == old(calls)
      ensures file.exception.Some? ==>
        && r == Investigated(Case(file.runId, file.events, file.exception.value), first, second, at)
        && attached == (if r.Ok? then old(attached) + [r.value] else old(attached))
        && calls == old(calls) + if Retries(Case(file.runId, file.events, file.exception.value), first, at) then 2 else 1
    {
      hide Validated, AdvisoryAccepted, Fallback;
      if file.exception.None? {
        return Err(NothingToInvestigate);
      }
      var c := Case(file.runId, file.events, file.exception.value);
      calls := calls + 1;
      var failure: string;
      match first {
        case Crash => return Err(ModelCrashed);
        case Unavailable => failure := OUTAGE;
        case Faulty => failure := INVALID;
        case Response(payload, version, latency) =>
          var advice := Validated(c, payload, version, latency, at);
          if advice.None? {
            calls := calls + 1;
            match second {
              case Crash => return Err(ModelCrashed);
              case Unavailable => failure := OUTAGE;
              case Faulty => failure := INVALID;
              case Response(payload, version, more) =>
                failure := INVALID;
                advice := Validated(c, payload, version, latency + more, at);
            }
          }
          if advice.Some? {
            attached := attached + [advice.value];
            return Ok(advice.value);
          }
      }
      var note := Fallback(c, failure, at);
      if !AdvisoryAccepted(note) {
        return Err(FallbackRefused);
      }
      attached := attached + [note];
      r := Ok(note);
    }
  }

  // ---- safety -------------------------------------------------------------------------------

  /** The stored case cites, once each, rows that are its own. */
  ghost predicate CitesOwnRows(c: Case) {
    && Strip(c.runId) != "" && DistinctlyCited(c.exception.links)
    && forall l | l in c.exception.links :: l.eventId in Ids(c.events)
  }

  lemma {:induction false} CitedIdsOf(links: seq<Link>)
    ensures forall id :: id in CitedIds(links) ==> exists l :: l in links && l.eventId == id
    ensures DistinctlyCited(links) ==> Advice.Distinct(CitedIds(links))
  {
    if links != [] {
      var init, last := links[..|links| - 1], links[|links| - 1];
      CitedIdsOf(init);
      assert links == init + [last];
      if DistinctlyCited(links) {
        forall i | 0 <= i < |CitedIds(init)| ensures CitedIds(init)[i] != last.eventId {
          assert CitedIds(init)[i] in CitedIds(init);
        }
      }
    }
  }

  lemma FallbackTexts()
    ensures Strip(FALLBACK_TITLE) != "" && Strip(FALLBACK_NOTE) != ""
  {
    NothingToStrip(FALLBACK_TITLE);
    NothingToStrip(FALLBACK_NOTE);
  }

  lemma {:induction false} FallbackIsSafe(c: Case, failureCode: string, at: int)
    requires CitesOwnRows(c) && failureCode != ""
    ensures Safe(c, Fallback(c, failureCode, at))
  {
    CitedIdsOf(c.exception.links);
    FallbackTexts();
    hide CitedIds, Strip;
  }

  /** Whatever two answers a model gives, an investigation of a stored case attaches exactly one result,
      and it is safe: its citations are distinct rows of the case, its journal balances, and a human has
      to approve it. Only an error outside the caught kinds leaves the case without a result. */
  lemma {:induction false} InvestigationIsSafe(c: Case, first: Answer, second: Answer, at: int)
    requires CitesOwnRows(c)
    ensures var r := Investigated(c, first, second, at);
      && (r.Ok? <==> !LastAnswer(c, first, second, at).Crash?)
      && (r.Ok? ==> Safe(c, r.value))
      && (r.Err? ==> r.error == ModelCrashed)
  {
    hide Validated, AdvisoryAccepted, Safe, Fallback;
    var last := LastAnswer(c, first, second, at);
    FallbackIsSafe(c, OUTAGE, at);
    FallbackIsSafe(c, INVALID, at);
    SafeIsAccepted(c, Fallback(c, OUTAGE, at));
    SafeIsAccepted(c, Fallback(c, INVALID, at));
    var earlier := if Retries(c, first, at) then first.latency else 0;
    if ValidAnswer(c, last, earlier, at).Some? {
      ValidatedIsSafe(c, last.payload, last.modelVersion, earlier + last.latency, at);
    }
  }

  lemma SafeIsAccepted(c: Case, a: Advisory)
    requires Safe(c, a)
    ensures AdvisoryAccepted(a)
  {
  }

  // ---- what the kernel stores ---------------------------------------------------------------

  lemma {:induction false} EveryLinkOnce(b: Batch, refs: seq<string>, cases: seq<Facts>, similarity: Similarity, k: nat)
    requires WellFormed(b) && Known(b, refs) && cases == Cases(b, refs) && Presentable(b, cases)
    requires k < |ProposalsFrom(b, cases, similarity)|
    ensures DistinctlyCited(ProposalsFrom(b, cases, similarity)[k].links)
  {
    ProposalsCiteTheirMembers(b, cases, similarity, k);
    assert Ordered(b.events);
    var n, m := |cases|, |OrphanBank(b, cases)|;
    hide Cases, Members, OrphanBank, OrphanErp, Known, SettlementProposal, OrphanProposal, WellFormed, FactsOf, ClaimedBank,
         GatewaySettlement, Ids, Ordered, DistinctlyCited;
    if k < n {
      CaseAt(b, refs, k);
      CaseProposalAt(b, cases, similarity, k);
      CaseLinksOnce(b, refs[k], ClaimedBank(cases[..k]), similarity);
    } else if k < n + m {
      assert ProposalsFrom(b, cases, similarity)[k] == BankOrphanProposals(b, OrphanBank(b, cases))[k - n];
      SingletonOrdered(OrphanBank(b, cases)[k - n]);
      OrphanLinksOnce(b, [OrphanBank(b, cases)[k - n]], OrphanBankCredit, "");
    } else {
      var rows := OrphanErp(b, cases)[k - n - m];
      assert ProposalsFrom(b, cases, similarity)[k] == ErpOrphanProposals(b, OrphanErp(b, cases))[k - n - m];
      OrphanJournal(b, cases, k - n - m);
      OrphanLinksOnce(b, rows, OrphanErpPosting, JournalId(rows[0].recordId));
    }
  }

  lemma {:induction false} CaseLinksOnce(b: Batch, reference: string, consumed: set<string>, similarity: Similarity)
    requires Ordered(b.events) && GatewaySettlement(b, reference) != []
    ensures DistinctlyCited(SettlementProposal(b.runId, b.policy, FactsOf(b, reference, consumed), similarity).links)
  {
    CaseEvidence(b, reference, consumed);
    var f := FactsOf(b, reference, consumed);
    assert SettlementProposal(b.runId, b.policy, f, similarity).links == FirstOfEach(GatewayLinks(f) + BankLinks(f) + ErpLinks(f));
    hide FactsOf, SettlementProposal, LinkIds, Members, FirstOfEach, GatewayLinks, BankLinks, ErpLinks, DistinctlyCited;
  }

  lemma {:induction false} OrphanLinksOnce(b: Batch, rows: seq<Event>, reason: Reason, key: string)
    requires rows != [] && Ordered(rows)
    ensures DistinctlyCited(OrphanProposal(b.runId, b.policy, rows, reason, key).links)
  {
    OrderedIsUnique(rows);
    EvidenceIsDistinct(rows, Unconsumed);
    hide LargestAmount, DistinctlyCited;
  }

  lemma {:induction false} LinkOfRow(links: seq<Link>, rows: seq<Event>, l: Link)
    requires LinkIds(links) == IdSet(rows) && l in links
    ensures l.eventId in Ids(rows)
  {
    assert l.eventId in LinkIds(links);
    var e :| e in rows && e.eventId == l.eventId;
    var i :| 0 <= i < |rows| && rows[i] == e;
    assert Ids(rows)[i] == l.eventId;
  }

  /** Every exception the kernel files cites each row of its case once, so its investigation never runs
      into the fallback's own checks. */
  lemma {:induction false} KernelCasesCiteOwnRows(b: Batch, refs: seq<string>, cases: seq<Facts>, similarity: Similarity, k: nat)
    requires WellFormed(b) && Known(b, refs) && cases == Cases(b, refs) && Presentable(b, cases) && Strip(b.runId) != ""
    requires k < |ProposalsFrom(b, cases, similarity)| && k < |MemberLists(b, cases)|
    requires FiledFor(b, ProposalsFrom(b, cases, similarity), k).Some?
    ensures CitesOwnRows(Case(b.runId, MemberLists(b, cases)[k], FiledFor(b, ProposalsFrom(b, cases, similarity), k).value))
  {
    var ps := ProposalsFrom(b, cases, similarity);
    EveryLinkOnce(b, refs, cases, similarity, k);
    EveryProposalCitesItsMembers(b, refs, cases, similarity, k);
    FiledCites(b, ps, k);
    hide Cases, Known, WellFormed, ProposalsFrom, MemberLists, FiledFor, Presentable, LinkIds, IdSet, Ids, DistinctlyCited, Strip,
         TextSet;
    forall l | l in ps[k].links ensures l.eventId in Ids(MemberLists(b, cases)[k]) {
      LinkOfRow(ps[k].links, MemberLists(b, cases)[k], l);
    }
  }

  // ---- which result -------------------------------------------------------------------------

  /** The deterministic note: the policy's own action, all the evidence, no journal, no confidence. */
  ghost predicate IsNote(c: Case, failureCode: string, at: int, a: Advisory) {
    && a.runId == c.runId && a.caseId == c.exception.caseId && a.status == DeterministicFallback && a.failureCode == failureCode
    && a.action == c.exception.treatment.action && a.journal == None && a.confidence == 0 && a.needsApproval
    && a.modelVersion == "" && a.latency == 0 && a.at == at
    && forall id :: id in a.evidence <==> id != "" && exists l :: l in c.exception.links && l.eventId == id
  }

  lemma {:induction false} CitedIdsExactly(links: seq<Link>)
    ensures forall id :: id in CitedIds(links) <==> id != "" && exists l :: l in links && l.eventId == id
  {
    if links != [] {
      var init, last := links[..|links| - 1], links[|links| - 1];
      CitedIdsExactly(init);
      assert links == init + [last];
    }
  }

  lemma {:induction false} FallbackIsNote(c: Case, failureCode: string, at: int)
    ensures IsNote(c, failureCode, at, Fallback(c, failureCode, at))
  {
    CitedIdsExactly(c.exception.links);
    hide CitedIds;
  }

  /** Which result an investigation attaches: the first answer if it is accepted; else, if it was an answer at all, the
      second if that is accepted, with both latencies; else the note, which says whether the model was away or invalid.
      An error outside the caught kinds attaches nothing. */
  lemma {:induction false} InvestigationTable(c: Case, first: Answer, second: Answer, at: int)
    requires CitesOwnRows(c)
    ensures var r := Investigated(c, first, second, at);
      match first
      case Unavailable => r.Ok? && IsNote(c, "MODEL_UNAVAILABLE", at, r.value)
      case Faulty => r.Ok? && IsNote(c, "MODEL_OUTPUT_INVALID", at, r.value)
      case Crash => r == Err(ModelCrashed)
      case Response(payload, version, latency) =>
        var advice := Validated(c, payload, version, latency, at);
        if advice.Some? then r == Ok(advice.value)
        else match second
          case Unavailable => r.Ok? && IsNote(c, "MODEL_UNAVAILABLE", at, r.value)
          case Faulty => r.Ok? && IsNote(c, "MODEL_OUTPUT_INVALID", at, r.value)
          case Crash => r == Err(ModelCrashed)
          case Response(payload, version, more) =>
            var retried := Validated(c, payload, version, latency + more, at);
            if retried.Some? then r == Ok(retried.value) else r.Ok? && IsNote(c, "MODEL_OUTPUT_INVALID", at, r.value)
  {
    hide Validated, AdvisoryAccepted, Safe, Fallback, IsNote, CitesOwnRows;
    FallbackIsNote(c, OUTAGE, at);
    FallbackIsNote(c, INVALID, at);
    FallbackIsSafe(c, OUTAGE, at);
    FallbackIsSafe(c, INVALID, at);
    SafeIsAccepted(c, Fallback(c, OUTAGE, at));
    SafeIsAccepted(c, Fallback(c, INVALID, at));
  }
}
