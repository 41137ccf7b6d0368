/** ERP journal rows: how a row is read, what event it becomes, and how a drafted journal is written. */
module Ledger {
  import opened Events
  import opened Selection
  import opened Transforms

  // ---- identity -----------------------------------------------------------------------------

  function SourceName(source: SourceType): string {
    match source
    case Gateway => "GATEWAY"
    case Bank => "BANK"
    case Erp => "ERP"
  }

  /** The part of an event id that does not depend on the run. */
  function IdSuffix(source: SourceType, recordId: string): string {
    ":" + (SourceName(source) + (":" + recordId))
  }

  function EventId(runId: string, source: SourceType, recordId: string): string {
    runId + IdSuffix(source, recordId)
  }

  lemma {:induction false} IdSuffixIsInjective(s: SourceType, x: string, t: SourceType, y: string)
    requires IdSuffix(s, x) == IdSuffix(t, y)
    ensures s == t && x == y
  {
    var a, b := IdSuffix(s, x), IdSuffix(t, y);
    assert a[1] == SourceName(s)[0] && b[1] == SourceName(t)[0];
    assert s == t;
    var n := |SourceName(s)| + 2;
    assert a[n..] == x && b[n..] == y;
  }

  // ---- rows ---------------------------------------------------------------------------------

  /** One row of the ERP file, its cells as text. A posting date is the day it denotes, or None when
      it is not an ISO date. */
  datatype ErpRow = ErpRow(
    journalId: string,
    lineNumber: string,
    postingDate: Option<int>,
    account: string,
    debit: string,
    credit: string,
    currency: string,
    reference: string,
    narration: string
  )

  datatype ErpValues = ErpValues(
    journalId: string,
    line: nat,
    day: int,
    account: string,
    amount: nat,
    direction: Direction,
    currency: string,
    reference: string,
    narration: string
  )

  datatype Problem =
    | JournalIdMissing | LineNumberInvalid | PostingDateInvalid | AccountCodeMissing
    | DebitInvalid | CreditInvalid | AmountNegative | SidesInvalid | CurrencyInvalid

  predicate IsCurrency(s: string) {
    |s| == 3 && forall i | 0 <= i < 3 :: 'a' <= s[i] <= 'z' || 'A' <= s[i] <= 'Z'
  }

  function ParseAmounts(row: ErpRow): Result<(nat, Direction), Problem> {
    var debit, credit := ParseDecimalMinor(row.debit), ParseDecimalMinor(row.credit);
    if debit.None? then Err(DebitInvalid)
    else if credit.None? then Err(CreditInvalid)
    else if debit.value < 0 || credit.value < 0 then Err(AmountNegative)
    else if (debit.value > 0) == (credit.value > 0) then Err(SidesInvalid)
    else if debit.value != 0 then Ok((debit.value, Debit))
    else Ok((credit.value, Credit))
  }

  function ParseRow(row: ErpRow): Result<ErpValues, Problem> {
    var line := ParseInteger(row.lineNumber);
    if Strip(row.journalId) == "" then Err(JournalIdMissing)
    else if line.None? || line.value < 1 then Err(LineNumberInvalid)
    else if row.postingDate.None? then Err(PostingDateInvalid)
    else if Strip(row.account) == "" then Err(AccountCodeMissing)
    else
      var amounts := ParseAmounts(row);
      if amounts.Err? then Err(amounts.error)
      else if !IsCurrency(Upper(Strip(row.currency))) then Err(CurrencyInvalid)
      else Ok(ErpValues(Strip(row.journalId), line.value, row.postingDate.value, Strip(row.account),
                        amounts.value.0, amounts.value.1, Upper(Strip(row.currency)),
                        Strip(row.reference), Strip(row.narration)))
  }

  function RecordId(v: ErpValues): string {
    v.journalId + ":" + Digits(v.line)
  }

  function BuildEvent(v: ErpValues, runId: string, entity: string, lineage: Lineage): Event {
    Event(EventId(runId, Erp, RecordId(v)), runId, Erp, RecordId(v), entity, ErpJournalLine, v.amount, v.currency,
          v.direction, v.day, Some(v.day), v.reference, v.reference, "", v.account, v.narration, lineage)
  }

  /** Journals are recovered from record ids whatever characters their ids contain. */
  lemma {:induction false} JournalOfRecord(v: ErpValues)
    ensures JournalId(RecordId(v)) == v.journalId
  {
    DigitsAreDigits(v.line);
    assert ':' !in Digits(v.line);
    JournalIdRoundTrip(v.journalId, Digits(v.line));
  }

  lemma {:induction false} RecordIdIsInjective(v: ErpValues, w: ErpValues)
    requires RecordId(v) == RecordId(w)
    ensures v.journalId == w.journalId && v.line == w.line
  {
    JournalOfRecord(v);
    JournalOfRecord(w);
    var n := |v.journalId| + 1;
    assert RecordId(v)[n..] == Digits(v.line) && RecordId(w)[n..] == Digits(w.line);
    DigitsRoundTrip(v.line);
    DigitsRoundTrip(w.line);
  }

  // ---- drafted journals ---------------------------------------------------------------------

  datatype JournalLine = JournalLine(
    account: string,
    amount: nat,
    currency: string,
    direction: Direction,
    narration: string,
    links: seq<Link>
  )

  function SideSum(lines: seq<JournalLine>, side: Direction): nat {
    if lines == [] then 0
    else (if lines[0].direction == side then lines[0].amount else 0) + SideSum(lines[1..], side)
  }

  function RoleSum(lines: seq<JournalLine>, role: Role): nat {
    if lines == [] then 0
    else (if lines[0].account in role.accounts && lines[0].direction == role.direction then lines[0].amount else 0)
         + RoleSum(lines[1..], role)
  }

  /** What the constructors of journal lines and journals demand. */
  predicate JournalAccepted(lines: seq<JournalLine>) {
    && |lines| >= 2
    && (forall i | 0 <= i < |lines| ::
         lines[i].amount > 0 && lines[i].links != [] && lines[i].account != "" && lines[i].currency == lines[0].currency)
    && SideSum(lines, Debit) == SideSum(lines, Credit)
  }

  const NARRATION_PREFIX := "VeriClose approved mock correction: "

  function RowOf(line: JournalLine, number: nat, journalId: string, day: int, reference: string): ErpRow {
    ErpRow(journalId, Digits(number), Some(day), line.account,
           if line.direction == Debit then Rupees(line.amount) else "0.00",
           if line.direction == Credit then Rupees(line.amount) else "0.00",
           line.currency, reference, NARRATION_PREFIX + line.narration)
  }

  /** The rows of a journal, numbered from one. */
  function RowsOf(lines: seq<JournalLine>, journalId: string, day: int, reference: string): seq<ErpRow> {
    seq(|lines|, i requires 0 <= i < |lines| => RowOf(lines[i], i + 1, journalId, day, reference))
  }

  /** Appends an approved journal to the rows of the ERP file. */
  method AppendJournal(rows: seq<ErpRow>, lines: seq<JournalLine>, journalId: string, day: int, reference: string)
    returns (all: seq<ErpRow>)
    ensures all == rows + RowsOf(lines, journalId, day, reference)
  {
    hide RowOf;
    all := rows;
    for i := 0 to |lines|
      invariant all == rows + RowsOf(lines, journalId, day, reference)[..i]
    {
      all := all + [RowOf(lines[i], i + 1, journalId, day, reference)];
    }
  }

  /** Text that the reader takes over unchanged. */
  predicate Tidy(line: JournalLine) {
    && line.account != "" && Trimmed(line.account)
    && Trimmed(line.currency) && IsCurrency(line.currency) && Upper(line.currency) == line.currency
    && line.amount % LastPlace(line.amount) == 0
  }

  lemma {:induction false} ZeroRupees()
    ensures ParseDecimalMinor("0.00") == Some(0)
  {
    assert Digits(0) == "0";
    assert Rupees(0) == "0.00";
    RoundTripIsExact(0);
  }

  /** What a drafted line is meant to be read back as. */
  function Meant(line: JournalLine, number: nat, journalId: string, day: int, reference: string): ErpValues {
    ErpValues(journalId, number, day, line.account, line.amount, line.direction, line.currency, reference,
              Strip(NARRATION_PREFIX + line.narration))
  }

  lemma {:induction false} StripShortens(s: string)
    ensures |Strip(s)| <= |s| && (|Strip(s)| == |s| ==> Strip(s) == s)
  {
    if s != "" && IsSpace(s[0]) {
      StripShortens(s[1..]);
    } else if s != "" && IsSpace(s[|s| - 1]) {
      StripShortens(s[..|s| - 1]);
    }
  }

  lemma CurrencyReadsBack(currency: string)
    ensures IsCurrency(Upper(Strip(currency))) && Upper(Strip(currency)) == currency
      <==> Trimmed(currency) && IsCurrency(currency) && Upper(currency) == currency
  {
    StripShortens(currency);
    hide Strip;
    assert |Upper(Strip(currency))| == |Strip(currency)|;
  }

  lemma {:induction false} AmountReadsBackExactly(line: JournalLine, number: nat, journalId: string, day: int, reference: string)
    requires line.amount > 0
    ensures ParseAmounts(RowOf(line, number, journalId, day, reference)) == Ok((line.amount, line.direction))
      <==> line.amount % LastPlace(line.amount) == 0
  {
    ZeroRupees();
    RoundTripIsExact(line.amount);
    RupeesRoundTrip(line.amount);
    hide ParseDecimalMinor, Rupees, LastPlace, Rounded;
  }

  /** A drafted line is read back with its account, amount, side, currency, number and reference if and only if
      it is tidy: a padded account or an amount beyond 28 digits comes back as something else. */
  lemma {:induction false} LineReadsBack(line: JournalLine, number: nat, journalId: string, day: int, reference: string)
    requires line.amount > 0 && number >= 1 && journalId != "" && Trimmed(journalId) && Trimmed(reference)
    ensures ParseRow(RowOf(line, number, journalId, day, reference)) == Ok(Meant(line, number, journalId, day, reference))
      <==> Tidy(line)
  {
    AmountReadsBackExactly(line, number, journalId, day, reference);
    IntegerRoundTrip(number);
    CurrencyReadsBack(line.currency);
    hide ParseAmounts, ParseInteger, Digits, Strip, Rupees, Upper, LastPlace, IsCurrency;
  }
}
