/** What attached advice owes to the text that the model wrote. */
module AdviceText {
  import opened Events
  import opened Transforms
  import opened Gate
  import opened Advice

  // ---- short references ---------------------------------------------------------------------

  /** `E01` for the first row, `E10` for the tenth. */
  function Short(k: nat): string {
    "E" + (if k < 10 then "0" else "") + Digits(k)
  }

  lemma {:induction false} ShortSpells(k: nat)
    ensures Short(k) == Ref(k) && AllDigits(Short(k)[1..]) && Value(Short(k)[1..]) == k
  {
    DigitsRoundTrip(k);
    hide Digits;
    if k < 10 {
      var t := Short(k)[1..];
      assert t == "0" + Digits(k);
      OneDigit(k);
      assert t[..1] == "0" && Value("0") == 0;
    } else {
      assert Short(k)[1..] == Digits(k);
    }
  }

  lemma OneDigit(k: nat)
    requires k < 10
    ensures |Digits(k)| == 1 && Digits(k)[0] as nat - '0' as nat == k
  {
  }

  predicate IsShort(events: seq<Event>, token: string, k: int) {
    0 <= k < |events| && token == Short(k + 1)
  }

  /** The row that a token stands for: the one with this short reference, or else the one with this id. */
  ghost predicate StandsFor(events: seq<Event>, token: string, id: string) {
    if exists k :: IsShort(events, token, k) then exists k :: IsShort(events, token, k) && id == events[k].eventId
    else id == token && exists e :: e in events && e.eventId == token
  }

  lemma {:induction false} ByRefExactly(events: seq<Event>, token: string)
    ensures ByRef(events, token).Some? <==> exists k :: IsShort(events, token, k)
    ensures forall k | IsShort(events, token, k) :: ByRef(events, token) == Some(events[k].eventId)
  {
    hide Ref, Short;
    if events != [] {
      var init := events[..|events| - 1];
      ByRefExactly(init, token);
      ShortSpells(|events|);
      assert forall k | 0 <= k < |init| :: IsShort(init, token, k) <==> IsShort(events, token, k);
      assert IsShort(events, token, |init|) <==> token == Short(|events|);
      forall k | IsShort(events, token, k) ensures ByRef(events, token) == Some(events[k].eventId) {
        ShortSpells(k + 1);
      }
    }
  }

  lemma {:induction false} ResolvedExactly(events: seq<Event>, token: string, id: string)
    ensures Resolved(events, token) == Some(id) <==> StandsFor(events, token, id)
  {
    ByRefExactly(events, token);
    hide ByRef, Short;
    IdsOf(events, token);
    if exists k :: IsShort(events, token, k) {
      var k :| IsShort(events, token, k);
      assert ByRef(events, token) == Some(events[k].eventId);
    }
  }

  lemma {:induction false} IdsOf(events: seq<Event>, id: string)
    ensures id in Ids(events) <==> exists e :: e in events && e.eventId == id
  {
    if id in Ids(events) {
      var i :| 0 <= i < |Ids(events)| && Ids(events)[i] == id;
      assert events[i] in events;
    }
    if e :| e in events && e.eventId == id {
      var i :| 0 <= i < |events| && events[i] == e;
      assert Ids(events)[i] == id;
    }
  }

  // ---- cited rows ---------------------------------------------------------------------------

  /** A text that is not blank, trimmed. */
  predicate Says(j: Json, text: string) {
    j.Str? && Strip(j.s) == text != ""
  }

  /** The text, trimmed, stands for the row. */
  ghost predicate CitesRow(events: seq<Event>, item: Json, id: string) {
    item.Str? && Strip(item.s) != "" && StandsFor(events, Strip(item.s), id)
  }

  /** One row for each cited token, in order. */
  ghost predicate Cites(events: seq<Event>, j: Json, ids: seq<string>) {
    j.List? && |ids| == |j.items| && forall k | 0 <= k < |ids| :: CitesRow(events, j.items[k], ids[k])
  }

  lemma {:induction false} TokensExactly(items: seq<Json>, tokens: seq<string>)
    ensures Tokens(items) == Some(tokens) <==> |tokens| == |items| && forall k | 0 <= k < |items| :: Says(items[k], tokens[k])
  {
    hide Strip;
    if items != [] && tokens != [] {
      TokensExactly(items[..|items| - 1], tokens[..|tokens| - 1]);
      assert tokens == tokens[..|tokens| - 1] + [tokens[|tokens| - 1]];
    }
  }

  lemma {:induction false} ResolvedAllExactly(events: seq<Event>, tokens: seq<string>, ids: seq<string>)
    ensures ResolvedAll(events, tokens) == Some(ids)
      <==> |ids| == |tokens| && forall k | 0 <= k < |ids| :: StandsFor(events, tokens[k], ids[k])
  {
    hide Resolved, StandsFor;
    if tokens != [] && ids != [] {
      ResolvedAllExactly(events, tokens[..|tokens| - 1], ids[..|ids| - 1]);
      ResolvedExactly(events, tokens[|tokens| - 1], ids[|ids| - 1]);
      assert ids == ids[..|ids| - 1] + [ids[|ids| - 1]];
    }
  }

  /** Rows are taken from a citation exactly when every token stands for one, all different. */
  lemma {:induction false} CitedExactly(events: seq<Event>, j: Json, ids: seq<string>)
    ensures CitedRows(events, j) == Some(ids) <==> Cites(events, j, ids) && Distinct(ids)
  {
    hide Tokens, ResolvedAll, Strip, StandsFor, Distinct;
    if CitedRows(events, j) == Some(ids) {
      var tokens := StringTuple(j).value;
      TokensExactly(j.items, tokens);
      ResolvedAllExactly(events, tokens, ids);
    }
    if Cites(events, j, ids) && Distinct(ids) {
      assert forall k | 0 <= k < |ids| :: CitesRow(events, j.items[k], ids[k]);
      var tokens := seq(|ids|, k requires 0 <= k < |ids| && j.items[k].Str? => Strip(j.items[k].s));
      TokensExactly(j.items, tokens);
      ResolvedAllExactly(events, tokens, ids);
      DistinctTokens(events, tokens, ids);
    }
  }

  lemma {:induction false} DistinctTokens(events: seq<Event>, tokens: seq<string>, ids: seq<string>)
    requires |ids| == |tokens| && (forall k | 0 <= k < |ids| :: StandsFor(events, tokens[k], ids[k])) && Distinct(ids)
    ensures Distinct(tokens)
  {
    hide StandsFor;
    forall i, j | 0 <= i < j < |tokens| ensures tokens[i] != tokens[j] {
      ResolvedExactly(events, tokens[i], ids[i]);
      ResolvedExactly(events, tokens[j], ids[j]);
    }
  }

  // ---- journals -----------------------------------------------------------------------------

  /** The line is what the item says: its account, its side, its amount, and the rows it cites. */
  ghost predicate LineFrom(events: seq<Event>, item: Json, line: AdvisoryLine) {
    && item.Dict? && item.fields.Keys == {"account_code", "direction", "amount_minor", "evidence_ids"}
    && Says(item.fields["account_code"], line.account)
    && Says(item.fields["direction"], if line.direction == Debit then "DEBIT" else "CREDIT")
    && item.fields["amount_minor"] == Int(line.amount)
    && Cites(events, item.fields["evidence_ids"], line.evidence)
  }

  lemma {:induction false} LineExactly(events: seq<Event>, item: Json, line: AdvisoryLine)
    ensures LineOf(events, item) == Some(line) <==> LineFrom(events, item, line) && LineAccepted(line)
  {
    hide CitedRows, Strip, Cites, Distinct;
    if item.Dict? && item.fields.Keys == LINE_FIELDS {
      assert "account_code" in item.fields && "direction" in item.fields && "amount_minor" in item.fields && "evidence_ids" in item.fields;
      CitedExactly(events, item.fields["evidence_ids"], line.evidence);
    }
  }

  lemma {:induction false} LinesExactly(events: seq<Event>, items: seq<Json>, lines: seq<AdvisoryLine>)
    ensures LinesOf(events, items) == Some(lines)
      <==> |lines| == |items| && forall k | 0 <= k < |items| :: LineFrom(events, items[k], lines[k]) && LineAccepted(lines[k])
  {
    hide LineOf, LineFrom, LineAccepted;
    if items != [] && lines != [] {
      LinesExactly(events, items[..|items| - 1], lines[..|lines| - 1]);
      LineExactly(events, items[|items| - 1], lines[|lines| - 1]);
      assert lines == lines[..|lines| - 1] + [lines[|lines| - 1]];
    }
  }

  /** A journal is attached exactly when the answer lists one: one line for each item in order, with the item's account,
      side, amount and rows, accepted and in balance. An empty list is no journal; anything else is refused. */
  lemma {:induction false} JournalExactly(events: seq<Event>, j: Json, lines: seq<AdvisoryLine>)
    ensures JournalOf(events, j) == Some(None) <==> j == List([])
    ensures JournalOf(events, j) == Some(Some(lines)) <==>
      && j.List? && |lines| == |j.items| && JournalAccepted(lines)
      && forall k | 0 <= k < |lines| :: LineFrom(events, j.items[k], lines[k]) && LineAccepted(lines[k])
  {
    hide LinesOf, LineFrom, LineAccepted, SideTotal;
    if j.List? {
      LinesExactly(events, j.items, lines);
    }
  }

  // ---- actions ------------------------------------------------------------------------------

  function Spelled(action: ActionType): string {
    match action
    case JournalExport => "JOURNAL_EXPORT"
    case ClarificationRequest => "CLARIFICATION_REQUEST"
    case MappingCorrection => "MAPPING_CORRECTION"
    case CorrectedDataImport => "CORRECTED_DATA_IMPORT"
    case Wait => "WAIT"
    case AcceptDifference => "ACCEPT_DIFFERENCE"
    case ManualReview => "MANUAL_REVIEW"
    case NoAction => "NO_ACTION"
  }

  lemma ActionExactly(j: Json, action: ActionType)
    ensures ActionOf(j) == Some(action) <==> Says(j, Spelled(action))
  {
    hide Strip;
  }

  // ---- certainty ----------------------------------------------------------------------------

  function LowerOf(ch: char): char {
    if 'A' <= ch <= 'Z' then 'a' + (ch - 'A') else ch
  }

  /** The word occurs in the text at this place, whatever the case of its letters. */
  predicate OccursAt(text: string, word: string, i: int) {
    0 <= i && i + |word| <= |text| && forall k | 0 <= k < |word| :: LowerOf(text[i + k]) == word[k]
  }

  ghost predicate Occurs(text: string, word: string) {
    exists i :: OccursAt(text, word, i)
  }

  lemma {:induction false} ContainsExactly(text: string, word: string)
    ensures Contains(Lower(text), word) <==> Occurs(text, word)
  {
    var s := Lower(text);
    assert OccursAt(text, word, 0) <==> |word| <= |s| && s[..|word|] == word by {
      assert |word| <= |s| ==> forall k | 0 <= k < |word| :: s[..|word|][k] == LowerOf(text[k]);
    }
    if text != "" {
      ContainsExactly(text[1..], word);
      assert s[1..] == Lower(text[1..]);
      forall i | i > 0 ensures OccursAt(text, word, i) <==> OccursAt(text[1..], word, i - 1) {
      }
      if i :| OccursAt(text[1..], word, i) {
        assert OccursAt(text, word, i + 1);
      }
    }
    hide LowerOf;
  }

  /** The text claims more certainty than advice can have. */
  ghost predicate ClaimsCertainty(text: string) {
    Occurs(text, "auto-clear") || Occurs(text, "definitely") || Occurs(text, "confirmed") || Occurs(text, "proved")
  }

  lemma CertaintyExactly(text: string)
    ensures Overconfident(text) <==> ClaimsCertainty(text)
  {
    ContainsExactly(text, "auto-clear");
    ContainsExactly(text, "definitely");
    ContainsExactly(text, "confirmed");
    ContainsExactly(text, "proved");
    hide Contains, Occurs, Lower;
  }

  // ---- mentioned amounts --------------------------------------------------------------------

  /** The item names a row of the case and that row's amount. */
  ghost predicate AmountFrom(events: seq<Event>, item: Json) {
    && item.Dict? && item.fields.Keys == {"evidence_id", "amount_minor"} && item.fields["amount_minor"].Int?
    && exists e :: e in events && CitesRow(events, item.fields["evidence_id"], e.eventId) && e.amount == item.fields["amount_minor"].n
  }

  lemma {:induction false} MentionExactly(events: seq<Event>, item: Json)
    ensures MentionAgrees(events, item) <==> AmountFrom(events, item)
  {
    hide Resolved, StandsFor, Strip;
    if item.Dict? && item.fields.Keys == MENTION_FIELDS {
      assert "evidence_id" in item.fields && "amount_minor" in item.fields;
      var cited := item.fields["evidence_id"];
      if cited.Str? {
        forall id ensures Resolved(events, Strip(cited.s)) == Some(id) <==> StandsFor(events, Strip(cited.s), id) {
          ResolvedExactly(events, Strip(cited.s), id);
        }
      }
    }
  }

  // ---- the whole answer ---------------------------------------------------------------------

  predicate HasFields(payload: Json) {
    payload.Dict? && payload.fields.Keys == {
      "hypothesis", "explanation", "evidence_ids", "confidence_bps", "recommended_action",
      "requires_human_approval", "mentioned_amounts", "journal_lines" }
  }

  /** The journal that the answer lists, if it lists one. */
  ghost predicate JournalFrom(events: seq<Event>, j: Json, journal: Option<seq<AdvisoryLine>>) {
    match journal
    case None => j == List([])
    case Some(lines) =>
      && j.List? && |lines| == |j.items| && JournalAccepted(lines)
      && forall k | 0 <= k < |lines| :: LineFrom(events, j.items[k], lines[k]) && LineAccepted(lines[k])
  }

  /** Rows, amounts, action, approval and journal are as the answer says. */
  ghost predicate FactsFrom(events: seq<Event>, payload: Json, a: Advisory)
    requires HasFields(payload)
  {
    var f := payload.fields;
    && Cites(events, f["evidence_ids"], a.evidence) && Distinct(a.evidence) && a.evidence != []
    && f["mentioned_amounts"].List? && (forall item | item in f["mentioned_amounts"].items :: AmountFrom(events, item))
    && Says(f["recommended_action"], Spelled(a.action)) && f["requires_human_approval"] == Flag(true)
    && JournalFrom(events, f["journal_lines"], a.journal) && (a.journal.Some? <==> a.action == JournalExport)
  }

  /** So are hypothesis, explanation and confidence, but that a claim of certainty is marked as unverified and carries
      no more than 8000 basis points. */
  ghost predicate WordsFrom(payload: Json, a: Advisory)
    requires HasFields(payload)
  {
    var f := payload.fields;
    && f["hypothesis"].Str? && Strip(f["hypothesis"].s) != "" && Says(f["explanation"], a.explanation)
    && f["confidence_bps"].Int? && 0 <= f["confidence_bps"].n <= 10_000
    && var hypothesis, stated := Strip(f["hypothesis"].s), f["confidence_bps"].n;
      if ClaimsCertainty(hypothesis + " " + a.explanation)
      then a.hypothesis == "Unverified hypothesis: " + hypothesis && a.confidence == (if stated > 8_000 then 8_000 else stated)
      else a.hypothesis == hypothesis && a.confidence == stated
  }

  /** The rest comes from the case and the call. */
  predicate FramedBy(c: Case, modelVersion: string, latency: int, at: int, a: Advisory) {
    && a.runId == c.runId && a.caseId == c.exception.caseId && a.status == ModelValidated && a.needsApproval
    && a.modelVersion == modelVersion && a.latency == latency && a.failureCode == "" && a.at == at
  }

  /** What is made of an answer, exactly: advice is attached if and only if it says what the answer says, its rows,
      amounts and journal are those of the case, and its constructor accepts it. */
  lemma {:induction false} AdviceExactly(c: Case, payload: Json, modelVersion: string, latency: int, at: int, a: Advisory)
    ensures Validated(c, payload, modelVersion, latency, at) == Some(a)
      <==> HasFields(payload) && FactsFrom(c.events, payload, a) && WordsFrom(payload, a) && FramedBy(c, modelVersion, latency, at, a)
           && AdvisoryAccepted(a)
  {
    hide CitedRows, Cites, Distinct, JournalOf, JournalFrom, ActionOf, Spelled, MentionAgrees, AmountFrom, Overconfident, ClaimsCertainty,
         AdvisoryAccepted, Strip;
    if HasFields(payload) {
      var f := payload.fields;
      assert f.Keys == FIELDS;
      assert "hypothesis" in f && "explanation" in f && "evidence_ids" in f && "confidence_bps" in f && "recommended_action" in f
          && "requires_human_approval" in f && "mentioned_amounts" in f && "journal_lines" in f;
      CitedExactly(c.events, f["evidence_ids"], a.evidence);
      MentionsExactly(c.events, f["mentioned_amounts"]);
      ActionExactly(f["recommended_action"], a.action);
      JournalFromExactly(c.events, f["journal_lines"], a.journal);
      if f["hypothesis"].Str? {
        CertaintyExactly(Strip(f["hypothesis"].s) + " " + a.explanation);
      }
    } else {
      assert !payload.Dict? || payload.fields.Keys != FIELDS;
    }
  }

  lemma {:induction false} MentionsExactly(events: seq<Event>, j: Json)
    ensures MentionsAgree(events, j) <==> j.List? && forall item | item in j.items :: AmountFrom(events, item)
  {
    hide MentionAgrees, AmountFrom;
    if j.List? {
      forall item | item in j.items ensures MentionAgrees(events, item) <==> AmountFrom(events, item) {
        MentionExactly(events, item);
      }
    }
  }

  lemma {:induction false} JournalFromExactly(events: seq<Event>, j: Json, journal: Option<seq<AdvisoryLine>>)
    ensures JournalOf(events, j) == Some(journal) <==> JournalFrom(events, j, journal)
  {
    hide JournalOf, LineFrom, LineAccepted, JournalAccepted;
    JournalExactly(events, j, if journal.Some? then journal.value else []);
  }
}
