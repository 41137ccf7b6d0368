/** Checking what an advisory model says about a case, whatever it says. */
module Advice {
  import opened Events
  import opened Transforms
  import opened Gate

  /** A decoded model payload. */
  datatype Json =
    | Null | Flag(b: bool) | Int(n: int) | Float(x: real) | Str(s: string)
    | List(items: seq<Json>) | Dict(fields: map<string, Json>)

  datatype AdvisoryLine = AdvisoryLine(account: string, direction: Direction, amount: int, evidence: seq<string>)

  datatype Status = ModelValidated | DeterministicFallback

  datatype Advisory = Advisory(
    runId: string,
    caseId: StableId,
    status: Status,
    hypothesis: string,
    explanation: string,
    evidence: seq<string>,
    confidence: int,
    action: ActionType,
    needsApproval: bool,
    journal: Option<seq<AdvisoryLine>>,
    modelVersion: string,
    latency: int,
    failureCode: string,
    at: int
  )

  /** A case under investigation: its rows and its exception. */
  datatype Case = Case(runId: string, events: seq<Event>, exception: ExceptionCase)

  // ---- constructors -------------------------------------------------------------------------

  predicate Distinct(s: seq<string>) {
    forall i, j | 0 <= i < j < |s| :: s[i] != s[j]
  }

  predicate LineAccepted(line: AdvisoryLine) {
    Strip(line.account) != "" && line.amount > 0 && line.evidence != [] && Distinct(line.evidence)
  }

  function SideTotal(lines: seq<AdvisoryLine>, side: Direction): int {
    if lines == [] then 0
    else SideTotal(lines[..|lines| - 1], side) + (if lines[|lines| - 1].direction == side then lines[|lines| - 1].amount else 0)
  }

  predicate JournalAccepted(lines: seq<AdvisoryLine>) {
    |lines| >= 2 && SideTotal(lines, Debit) == SideTotal(lines, Credit)
  }

  predicate AdvisoryAccepted(a: Advisory) {
    && Strip(a.runId) != "" && Strip(a.hypothesis) != "" && Strip(a.explanation) != ""
    && a.needsApproval && 0 <= a.confidence <= 10_000 && a.latency >= 0 && Distinct(a.evidence)
    && match a.status
       case ModelValidated => a.modelVersion != "" && a.failureCode == ""
       case DeterministicFallback => a.modelVersion == "" && a.failureCode != ""
  }

  // ---- references ---------------------------------------------------------------------------

  /** `E01`, `E02`, ...: the short reference of the `k`-th row, counting from one. */
  function Ref(k: nat): string {
    "E" + if k < 10 then "0" + Digits(k) else Digits(k)
  }

  function ByRef(events: seq<Event>, token: string): Option<string> {
    if events == [] then None
    else if token == Ref(|events|) then Some(events[|events| - 1].eventId)
    else ByRef(events[..|events| - 1], token)
  }

  /** The event id a token stands for: a short reference, or a full id of the case. */
  function Resolved(events: seq<Event>, token: string): Option<string> {
    if ByRef(events, token).Some? then ByRef(events, token)
    else if token in Ids(events) then Some(token)
    else None
  }

  function ResolvedAll(events: seq<Event>, tokens: seq<string>): Option<seq<string>> {
    if tokens == [] then Some([])
    else
      var before, last := ResolvedAll(events, tokens[..|tokens| - 1]), Resolved(events, tokens[|tokens| - 1]);
      if before.Some? && last.Some? then Some(before.value + [last.value]) else None
  }

  /** Every token resolved, or None when one is unknown or two stand for the same row. */
  function References(events: seq<Event>, tokens: seq<string>): Option<seq<string>> {
    var ids := ResolvedAll(events, tokens);
    if ids.Some? && Distinct(ids.value) then ids else None
  }

  method ResolveRefs(events: seq<Event>, tokens: seq<string>) returns (r: Option<seq<string>>)
    ensures r == References(events, tokens)
  {
    hide Resolved;
    var resolved: seq<string>, unknown := [], false;
    for i := 0 to |tokens|
      invariant ResolvedAll(events, tokens[..i]) == if unknown then None else Some(resolved)
    {
      assert tokens[..i + 1][..i] == tokens[..i];
      var id := Resolved(events, tokens[i]);
      if id.Some? {
        resolved := resolved + [id.value];
      } else {
        unknown := true;
      }
    }
    assert tokens[..|tokens|] == tokens;
    r := if unknown || !Distinct(resolved) then None else Some(resolved);
  }

  lemma {:induction false} ByRefIsARow(events: seq<Event>, token: string)
    ensures ByRef(events, token).Some? ==> ByRef(events, token).value in Ids(events)
  {
    hide Ref;
    if events != [] {
      ByRefIsARow(events[..|events| - 1], token);
      assert Ids(events) == Ids(events[..|events| - 1]) + [events[|events| - 1].eventId];
    }
  }

  /** Resolved references are distinct rows of the case. */
  lemma {:induction false} ReferencesAreRows(events: seq<Event>, tokens: seq<string>)
    ensures ResolvedAll(events, tokens).Some? ==>
      |ResolvedAll(events, tokens).value| == |tokens| && forall id | id in ResolvedAll(events, tokens).value :: id in Ids(events)
  {
    if tokens != [] {
      ReferencesAreRows(events, tokens[..|tokens| - 1]);
      ByRefIsARow(events, tokens[|tokens| - 1]);
    }
  }

  // ---- fields -------------------------------------------------------------------------------

  /** Non-empty trimmed text, or None. */
  function TextOf(j: Json): Option<string> {
    if j.Str? && Strip(j.s) != "" then Some(Strip(j.s)) else None
  }

  function Tokens(items: seq<Json>): Option<seq<string>> {
    if items == [] then Some([])
    else
      var before, last := Tokens(items[..|items| - 1]), TextOf(items[|items| - 1]);
      if before.Some? && last.Some? then Some(before.value + [last.value]) else None
  }

  /** A list of distinct non-empty texts, trimmed. */
  function StringTuple(j: Json): Option<seq<string>> {
    if !j.List? then None
    else
      var tokens := Tokens(j.items);
      if tokens.Some? && Distinct(tokens.value) then tokens else None
  }

  function CitedRows(events: seq<Event>, j: Json): Option<seq<string>> {
    var tokens := StringTuple(j);
    if tokens.None? then None else References(events, tokens.value)
  }

  function DirectionOf(j: Json): Option<Direction> {
    var t := TextOf(j);
    if t == Some("DEBIT") then Some(Debit) else if t == Some("CREDIT") then Some(Credit) else None
  }

  function ActionOf(j: Json): Option<ActionType> {
    match TextOf(j)
    case None => None
    case Some(t) =>
      if t == "JOURNAL_EXPORT" then Some(JournalExport)
      else if t == "CLARIFICATION_REQUEST" then Some(ClarificationRequest)
      else if t == "MAPPING_CORRECTION" then Some(MappingCorrection)
      else if t == "CORRECTED_DATA_IMPORT" then Some(CorrectedDataImport)
      else if t == "WAIT" then Some(Wait)
      else if t == "ACCEPT_DIFFERENCE" then Some(AcceptDifference)
      else if t == "MANUAL_REVIEW" then Some(ManualReview)
      else if t == "NO_ACTION" then Some(NoAction)
      else None
  }

  const FIELDS: set<string> := {
    "hypothesis", "explanation", "evidence_ids", "confidence_bps", "recommended_action",
    "requires_human_approval", "mentioned_amounts", "journal_lines"
  }

  const LINE_FIELDS: set<string> := {"account_code", "direction", "amount_minor", "evidence_ids"}

  const MENTION_FIELDS: set<string> := {"evidence_id", "amount_minor"}

  function Field(j: Json, name: string): Json {
    if j.Dict? && name in j.fields then j.fields[name] else Null
  }

  // ---- mentioned amounts --------------------------------------------------------------------

  /** Does some row of the case with this id have the amount? Ids are unique within a case. */
  predicate AmountIs(events: seq<Event>, id: string, n: int) {
    exists e | e in events :: e.eventId == id && e.amount == n
  }

  predicate MentionAgrees(events: seq<Event>, j: Json) {
    && j.Dict? && j.fields.Keys == MENTION_FIELDS
    && TextOf(Field(j, "evidence_id")).Some?
    && Resolved(events, TextOf(Field(j, "evidence_id")).value).Some?
    && Field(j, "amount_minor").Int?
    && AmountIs(events, Resolved(events, TextOf(Field(j, "evidence_id")).value).value, Field(j, "amount_minor").n)
  }

  predicate MentionsAgree(events: seq<Event>, j: Json) {
    j.List? && forall item | item in j.items :: MentionAgrees(events, item)
  }

  // ---- journals -----------------------------------------------------------------------------

  function LineOf(events: seq<Event>, j: Json): Option<AdvisoryLine> {
    if !j.Dict? || j.fields.Keys != LINE_FIELDS then None
    else
      var cited, account := CitedRows(events, Field(j, "evidence_ids")), TextOf(Field(j, "account_code"));
      var direction, amount := DirectionOf(Field(j, "direction")), Field(j, "amount_minor");
      if cited.None? || account.None? || direction.None? || !amount.Int? then None
      else
        var line := AdvisoryLine(account.value, direction.value, amount.n, cited.value);
        if LineAccepted(line) then Some(line) else None
  }

  function LinesOf(events: seq<Event>, items: seq<Json>): Option<seq<AdvisoryLine>> {
    if items == [] then Some([])
    else
      var before, last := LinesOf(events, items[..|items| - 1]), LineOf(events, items[|items| - 1]);
      if before.Some? && last.Some? then Some(before.value + [last.value]) else None
  }

  /** No journal for an empty list; otherwise accepted lines that balance. None when refused. */
  function JournalOf(events: seq<Event>, j: Json): Option<Option<seq<AdvisoryLine>>> {
    if !j.List? then None
    else if j.items == [] then Some(None)
    else
      var lines := LinesOf(events, j.items);
      if lines.Some? && JournalAccepted(lines.value) then Some(Some(lines.value)) else None
  }

  method ReadJournal(events: seq<Event>, j: Json) returns (r: Option<Option<seq<AdvisoryLine>>>)
    ensures r == JournalOf(events, j)
  {
    hide LineOf, SideTotal;
    if !j.List? {
      return None;
    }
    if j.items == [] {
      return Some(None);
    }
    var lines: seq<AdvisoryLine> := [];
    for i := 0 to |j.items|
      invariant LinesOf(events, j.items[..i]) == Some(lines)
    {
      assert j.items[..i + 1][..i] == j.items[..i];
      var line := LineOf(events, j.items[i]);
      if line.None? {
        OneBadLine(events, j.items, i);
        return None;
      }
      lines := lines + [line.value];
    }
    assert j.items[..|j.items|] == j.items;
    r := if JournalAccepted(lines) then Some(Some(lines)) else None;
  }

  lemma {:induction false} OneBadLine(events: seq<Event>, items: seq<Json>, i: nat)
    requires i < |items| && LineOf(events, items[i]).None?
    ensures LinesOf(events, items).None?
  {
    hide LineOf;
    if i < |items| - 1 {
      OneBadLine(events, items[..|items| - 1], i);
    }
  }

  // ---- a whole answer -----------------------------------------------------------------------

  function Lower(s: string): string {
    seq(|s|, i requires 0 <= i < |s| => if 'A' <= s[i] <= 'Z' then 'a' + (s[i] - 'A') else s[i])
  }

  predicate Contains(s: string, part: string) {
    |part| <= |s| && (s[..|part|] == part || (s != "" && Contains(s[1..], part)))
  }

  /** Words that claim more certainty than advice can have. */
  predicate Overconfident(text: string) {
    || Contains(Lower(text), "auto-clear") || Contains(Lower(text), "definitely")
    || Contains(Lower(text), "confirmed") || Contains(Lower(text), "proved")
  }

  const UNVERIFIED: string := "Unverified hypothesis: "

  /** What is made of a model answer, or None when it is rejected. */
  function Validated(c: Case, payload: Json, modelVersion: string, latency: int, at: int): Option<Advisory> {
    if !payload.Dict? || payload.fields.Keys != FIELDS then None
    else
      var evidence := CitedRows(c.events, Field(payload, "evidence_ids"));
      var journal := JournalOf(c.events, Field(payload, "journal_lines"));
      var action := ActionOf(Field(payload, "recommended_action"));
      var hypothesis, explanation := TextOf(Field(payload, "hypothesis")), TextOf(Field(payload, "explanation"));
      var confidence := Field(payload, "confidence_bps");
      if evidence.None? || evidence.value == [] || !MentionsAgree(c.events, Field(payload, "mentioned_amounts")) || action.None?
         || Field(payload, "requires_human_approval") != Flag(true) || journal.None?
         || (action.value == JournalExport) != journal.value.Some?
         || hypothesis.None? || explanation.None? || !confidence.Int? || !(0 <= confidence.n <= 10_000)
      then None
      else
        var bold := Overconfident(hypothesis.value + " " + explanation.value);
        var a := Advisory(
          c.runId, c.exception.caseId, ModelValidated, if bold then UNVERIFIED + hypothesis.value else hypothesis.value,
          explanation.value, evidence.value, if bold && confidence.n > 8_000 then 8_000 else confidence.n, action.value, true,
          journal.value, modelVersion, latency, "", at);
        if AdvisoryAccepted(a) then Some(a) else None
  }

  // ---- safety -------------------------------------------------------------------------------

  /** Advice that may be shown: its citations are rows of the case, its journal balances, and a
      human has to approve it. */
  ghost predicate Safe(c: Case, a: Advisory) {
    && AdvisoryAccepted(a) && a.needsApproval
    && (forall id | id in a.evidence :: id in Ids(c.events))
    && (a.journal.Some? ==>
         && a.action == JournalExport && JournalAccepted(a.journal.value)
         && forall line | line in a.journal.value :: LineAccepted(line) && forall id | id in line.evidence :: id in Ids(c.events))
  }

  lemma {:induction false} LinesAreSafe(events: seq<Event>, items: seq<Json>)
    requires LinesOf(events, items).Some?
    ensures forall line | line in LinesOf(events, items).value ::
      LineAccepted(line) && forall id | id in line.evidence :: id in Ids(events)
  {
    hide LineAccepted;
    if items != [] {
      LinesAreSafe(events, items[..|items| - 1]);
      LineIsSafe(events, items[|items| - 1]);
      hide LineOf;
    }
  }

  lemma {:induction false} LineIsSafe(events: seq<Event>, j: Json)
    requires LineOf(events, j).Some?
    ensures var line := LineOf(events, j).value; LineAccepted(line) && forall id | id in line.evidence :: id in Ids(events)
  {
    var tokens := StringTuple(Field(j, "evidence_ids"));
    assert CitedRows(events, Field(j, "evidence_ids")).Some?;
    hide LineAccepted, StringTuple, DirectionOf, TextOf, ResolvedAll;
    ReferencesAreRows(events, tokens.value);
  }

  /** Nothing a model says gets past these checks: an answer is either rejected or becomes safe advice that
      cites at least one row, with a journal exactly when it recommends one, and with at most 8000 basis
      points of confidence behind a claim of certainty. */
  lemma {:induction false} ValidatedIsSafe(c: Case, payload: Json, modelVersion: string, latency: int, at: int)
    requires Validated(c, payload, modelVersion, latency, at).Some?
    ensures var a := Validated(c, payload, modelVersion, latency, at).value;
      && Safe(c, a) && a.status == ModelValidated && a.evidence != []
      && (a.action == JournalExport <==> a.journal.Some?)
      && (Overconfident(TextOf(Field(payload, "hypothesis")).value + " " + a.explanation) ==> a.confidence <= 8_000)
  {
    var tokens := StringTuple(Field(payload, "evidence_ids"));
    assert CitedRows(c.events, Field(payload, "evidence_ids")).Some?;
    hide StringTuple, ResolvedAll, MentionsAgree, Overconfident, FIELDS, ActionOf, TextOf, LinesOf, JournalAccepted, LineAccepted;
    ReferencesAreRows(c.events, tokens.value);
    if Field(payload, "journal_lines").List? && Field(payload, "journal_lines").items != [] {
      LinesAreSafe(c.events, Field(payload, "journal_lines").items);
    }
  }
}
