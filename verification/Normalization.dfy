/** Row-level normalization: every row of a file becomes an event or is quarantined with its blockers. */
module Normalization {
  import opened Events

  /** What reading a row comes to: a row problem, a value no event can be built from, or an event. */
  datatype Reading = Unreadable(code: string) | Unbuildable | Readable(event: Event)

  datatype Row = Row(number: nat, reading: Reading)

  datatype Issue = Issue(row: Option<nat>, code: string, blocking: bool)

  datatype Disposition = Disposition(row: nat, normalized: bool, eventIds: seq<string>, codes: seq<string>)

  datatype Normalized = Normalized(rowsSeen: nat, events: seq<Event>, dispositions: seq<Disposition>, issues: seq<Issue>)

  datatype Refusal = Blocked | Raised

  const FAILED: string := "NORMALIZATION_FAILED"

  // ---- what the constructors demand ---------------------------------------------------------

  predicate NoRepeats<T(==)>(s: seq<T>) {
    forall i, j | 0 <= i < j < |s| :: s[i] != s[j]
  }

  predicate DispositionAccepted(d: Disposition) {
    && d.row >= 1 && NoRepeats(d.eventIds) && NoRepeats(d.codes)
    && (forall code | code in d.codes :: code != "")
    && if d.normalized then d.eventIds != [] && d.codes == [] else d.eventIds == [] && d.codes != []
  }

  function RowNumbers(ds: seq<Disposition>): seq<nat> {
    seq(|ds|, i requires 0 <= i < |ds| => ds[i].row)
  }

  function DisposedIds(ds: seq<Disposition>): seq<string> {
    if ds == [] then [] else DisposedIds(ds[..|ds| - 1]) + ds[|ds| - 1].eventIds
  }

  function Blockers(issues: seq<Issue>): set<(nat, string)> {
    set x | x in issues && x.blocking && x.row.Some? :: (x.row.value, x.code)
  }

  function CitedBlockers(ds: seq<Disposition>): set<(nat, string)> {
    set d, code | d in ds && code in d.codes :: (d.row, code)
  }

  predicate ResultAccepted(r: Normalized) {
    && |r.dispositions| == r.rowsSeen
    && (forall d | d in r.dispositions :: DispositionAccepted(d))
    && NoRepeats(RowNumbers(r.dispositions)) && NoRepeats(Ids(r.events))
    && multiset(Ids(r.events)) == multiset(DisposedIds(r.dispositions))
    && (forall x | x in r.issues && x.blocking :: x.row.Some?)
    && CitedBlockers(r.dispositions) == Blockers(r.issues)
  }

  // ---- the reference definition -------------------------------------------------------------

  /** The issues of reading the rows one by one. */
  function RowIssues(rows: seq<Row>): seq<Issue> {
    if rows == [] then []
    else
      var last := rows[|rows| - 1];
      RowIssues(rows[..|rows| - 1]) + (if last.reading.Unreadable? then [Issue(Some(last.number), last.reading.code, true)] else [])
  }

  /** Distinct codes, in order of first appearance. */
  function Distinct(codes: seq<string>): seq<string> {
    if codes == [] then []
    else
      var before, last := codes[..|codes| - 1], codes[|codes| - 1];
      Distinct(before) + (if last in before then [] else [last])
  }

  /** The blockers of one row. */
  function BlockersOf(issues: seq<Issue>, number: nat): seq<string> {
    if issues == [] then []
    else
      var last := issues[|issues| - 1];
      BlockersOf(issues[..|issues| - 1], number) + (if last.blocking && last.row == Some(number) then [last.code] else [])
  }

  /** Does the row go through, given the issues raised before? */
  predicate GoesThrough(row: Row, issues: seq<Issue>) {
    BlockersOf(issues, row.number) == [] && row.reading.Readable?
  }

  function DispositionOf(row: Row, issues: seq<Issue>): Disposition {
    if BlockersOf(issues, row.number) != [] then Disposition(row.number, false, [], Distinct(BlockersOf(issues, row.number)))
    else match row.reading
      case Readable(event) => Disposition(row.number, true, [event.eventId], [])
      case Unbuildable => Disposition(row.number, false, [], [FAILED])
      case Unreadable(code) => Disposition(row.number, false, [], [code])
  }

  function EventsOf(rows: seq<Row>, issues: seq<Issue>): seq<Event> {
    if rows == [] then []
    else
      var last := rows[|rows| - 1];
      EventsOf(rows[..|rows| - 1], issues) + (if GoesThrough(last, issues) then [last.reading.event] else [])
  }

  /** Issues found only while building events. */
  function LateIssues(rows: seq<Row>, issues: seq<Issue>): seq<Issue> {
    if rows == [] then []
    else
      var last := rows[|rows| - 1];
      LateIssues(rows[..|rows| - 1], issues)
      + (if BlockersOf(issues, last.number) == [] && !last.reading.Readable?
         then [Issue(Some(last.number), if last.reading.Unbuildable? then FAILED else last.reading.code, true)] else [])
  }

  function Dispositions(rows: seq<Row>, issues: seq<Issue>): seq<Disposition> {
    seq(|rows|, i requires 0 <= i < |rows| => DispositionOf(rows[i], issues))
  }

  function ResultOf(rows: seq<Row>, batch: seq<Issue>): Normalized {
    var issues := RowIssues(rows) + batch;
    Normalized(|rows|, EventsOf(rows, issues), Dispositions(rows, issues), issues + LateIssues(rows, issues))
  }

  predicate FileBlocked(batch: seq<Issue>) {
    exists x | x in batch :: x.blocking && x.row.None?
  }

  // ---- the algorithm ------------------------------------------------------------------------

  method Validate(rows: seq<Row>, batch: seq<Issue>) returns (issues: seq<Issue>)
    ensures issues == RowIssues(rows) + batch
  {
    issues := [];
    for i := 0 to |rows|
      invariant issues == RowIssues(rows[..i])
    {
      assert rows[..i + 1][..i] == rows[..i];
      if rows[i].reading.Unreadable? {
        issues := issues + [Issue(Some(rows[i].number), rows[i].reading.code, true)];
      }
    }
    assert rows[..|rows|] == rows;
    issues := issues + batch;
  }

  method IssuesByRow(issues: seq<Issue>) returns (byRow: map<nat, seq<string>>)
    ensures forall n :: BlockersOf(issues, n) == if n in byRow then byRow[n] else []
    ensures forall n | n in byRow :: byRow[n] != []
  {
    byRow := map[];
    for i := 0 to |issues|
      invariant forall n :: BlockersOf(issues[..i], n) == if n in byRow then byRow[n] else []
      invariant forall n | n in byRow :: byRow[n] != []
    {
      assert issues[..i + 1][..i] == issues[..i];
      var x := issues[i];
      if x.blocking && x.row.Some? {
        byRow := byRow[x.row.value := (if x.row.value in byRow then byRow[x.row.value] else []) + [x.code]];
      }
    }
    assert issues[..|issues|] == issues;
  }

  method FirstOfEachCode(codes: seq<string>) returns (r: seq<string>)
    ensures r == Distinct(codes)
  {
    r := [];
    for i := 0 to |codes|
      invariant r == Distinct(codes[..i]) && forall code :: code in r <==> code in codes[..i]
    {
      assert codes[..i + 1][..i] == codes[..i] && codes[..i + 1] == codes[..i] + [codes[i]];
      if codes[i] !in r {
        r := r + [codes[i]];
      }
    }
    assert codes[..|codes|] == codes;
  }

  /** Disposes of every row in turn; a file-level blocker refuses the file, and so does a result its
      constructor would not accept. */
  method Normalize(rows: seq<Row>, batch: seq<Issue>) returns (r: Result<Normalized, Refusal>)
    ensures r == if FileBlocked(batch) then Err(Blocked)
                 else if ResultAccepted(ResultOf(rows, batch)) then Ok(ResultOf(rows, batch)) else Err(Raised)
  {
    hide ResultAccepted, BlockersOf, Distinct, RowIssues, EventsOf, LateIssues, Dispositions;
    NoRowsYet();
    var report := Validate(rows, batch);
    AllRows(rows, report);
    if exists x | x in batch :: x.blocking && x.row.None? {
      return Err(Blocked);
    }
    var byRow := IssuesByRow(report);
    var events, dispositions, late: seq<Issue> := [], [], [];
    for i := 0 to |rows|
      invariant events == EventsOf(rows[..i], report) && late == LateIssues(rows[..i], report)
      invariant dispositions == Dispositions(rows, report)[..i]
    {
      OneMoreRow(rows, i, report);
      var row := rows[i];
      if row.number in byRow {
        var codes := FirstOfEachCode(byRow[row.number]);
        dispositions := dispositions + [Disposition(row.number, false, [], codes)];
      } else {
        match row.reading {
          case Readable(event) =>
            events := events + [event];
            dispositions := dispositions + [Disposition(row.number, true, [event.eventId], [])];
          case Unbuildable =>
            late := late + [Issue(Some(row.number), FAILED, true)];
            dispositions := dispositions + [Disposition(row.number, false, [], [FAILED])];
          case Unreadable(code) =>
            late := late + [Issue(Some(row.number), code, true)];
            dispositions := dispositions + [Disposition(row.number, false, [], [code])];
        }
      }
    }
    var result := Normalized(|rows|, events, dispositions, report + late);
    r := if ResultAccepted(result) then Ok(result) else Err(Raised);
  }

  lemma NoRowsYet()
    ensures forall issues :: EventsOf([], issues) == [] && LateIssues([], issues) == []
  {
  }

  /** What one more row adds. */
  lemma OneMoreRow(rows: seq<Row>, i: nat, issues: seq<Issue>)
    requires i < |rows|
    ensures EventsOf(rows[..i + 1], issues) == EventsOf(rows[..i], issues) + (if GoesThrough(rows[i], issues) then [rows[i].reading.event] else [])
    ensures LateIssues(rows[..i + 1], issues) == LateIssues(rows[..i], issues)
      + (if BlockersOf(issues, rows[i].number) == [] && !rows[i].reading.Readable?
         then [Issue(Some(rows[i].number), if rows[i].reading.Unbuildable? then FAILED else rows[i].reading.code, true)] else [])
    ensures i < |Dispositions(rows, issues)|
    ensures Dispositions(rows, issues)[..i + 1] == Dispositions(rows, issues)[..i] + [DispositionOf(rows[i], issues)]
  {
    hide BlockersOf, Distinct;
    assert rows[..i + 1][..i] == rows[..i];
  }

  lemma AllRows(rows: seq<Row>, issues: seq<Issue>)
    ensures rows[..|rows|] == rows && |Dispositions(rows, issues)| == |rows|
    ensures Dispositions(rows, issues)[..|rows|] == Dispositions(rows, issues)
  {
  }

  // ---- every row once -----------------------------------------------------------------------

  /** What the reader and the row checks guarantee: rows are numbered apart from one on, codes are named,
      and whole-file checks speak only of rows that could be read. */
  ghost predicate Numbered(rows: seq<Row>) {
    && (forall i, j | 0 <= i < j < |rows| :: rows[i].number != rows[j].number)
    && (forall row | row in rows :: row.number >= 1 && (row.reading.Unreadable? ==> row.reading.code != ""))
  }

  ghost predicate AboutRows(rows: seq<Row>, batch: seq<Issue>) {
    && !FileBlocked(batch)
    && forall x | x in batch && x.blocking :: x.code != "" && x.row.Some? && exists row :: row in rows && row.number == x.row.value
  }

  lemma {:induction false} BlockersOfMembers(issues: seq<Issue>, n: nat)
    ensures forall code :: code in BlockersOf(issues, n) <==> (n, code) in Blockers(issues)
  {
    if issues != [] {
      var init, last := issues[..|issues| - 1], issues[|issues| - 1];
      BlockersOfMembers(init, n);
      assert issues == init + [last];
      forall code
        ensures (n, code) in Blockers(issues) <==> ((n, code) in Blockers(init) || (last.blocking && last.row == Some(n) && code == last.code))
      {
      }
    }
  }

  lemma {:induction false} DistinctIsDistinct(codes: seq<string>)
    ensures NoRepeats(Distinct(codes)) && forall code :: code in Distinct(codes) <==> code in codes
  {
    if codes != [] {
      var before := codes[..|codes| - 1];
      DistinctIsDistinct(before);
      assert codes == before + [codes[|codes| - 1]];
    }
  }

  lemma {:induction false} RowIssueMembers(rows: seq<Row>, x: Issue)
    ensures x in RowIssues(rows)
      <==> exists row :: row in rows && row.reading.Unreadable? && x == Issue(Some(row.number), row.reading.code, true)
  {
    if rows != [] {
      var init, last := rows[..|rows| - 1], rows[|rows| - 1];
      RowIssueMembers(init, x);
      assert rows == init + [last];
      assert forall row :: row in rows <==> row in init || row == last;
    }
  }

  lemma {:induction false} LateIssueMembers(rows: seq<Row>, issues: seq<Issue>, x: Issue)
    ensures x in LateIssues(rows, issues)
      <==> exists row :: row in rows && BlockersOf(issues, row.number) == [] && !row.reading.Readable?
             && x == Issue(Some(row.number), if row.reading.Unbuildable? then FAILED else row.reading.code, true)
  {
    hide BlockersOf;
    if rows != [] {
      var init, last := rows[..|rows| - 1], rows[|rows| - 1];
      LateIssueMembers(init, issues, x);
      assert rows == init + [last];
      assert forall row :: row in rows <==> row in init || row == last;
    }
  }

  /** The ids of the events are the ids cited by the dispositions, row by row. */
  lemma {:induction false} SameIds(rows: seq<Row>, issues: seq<Issue>)
    ensures Ids(EventsOf(rows, issues)) == DisposedIds(Dispositions(rows, issues))
  {
    hide BlockersOf, Distinct;
    if rows != [] {
      var init, last := rows[..|rows| - 1], rows[|rows| - 1];
      SameIds(init, issues);
      assert Dispositions(rows, issues)[..|rows| - 1] == Dispositions(init, issues);
      assert Dispositions(rows, issues)[|rows| - 1] == DispositionOf(last, issues);
      var more := if GoesThrough(last, issues) then [last.reading.event] else [];
      assert Ids(EventsOf(init, issues) + more) == Ids(EventsOf(init, issues)) + Ids(more);
      assert Ids(more) == DispositionOf(last, issues).eventIds;
    } else {
      assert Ids([]) == [];
    }
  }

  lemma {:induction false} EveryDispositionIsAccepted(rows: seq<Row>, batch: seq<Issue>, row: Row)
    requires Numbered(rows) && AboutRows(rows, batch) && row in rows
    ensures DispositionAccepted(DispositionOf(row, RowIssues(rows) + batch))
  {
    var issues := RowIssues(rows) + batch;
    var codes := BlockersOf(issues, row.number);
    BlockersOfMembers(issues, row.number);
    DistinctIsDistinct(codes);
    hide BlockersOf, Distinct, RowIssues;
    forall code | code in codes ensures code != "" {
      var x :| x in issues && x.blocking && x.row == Some(row.number) && x.code == code;
      RowIssueMembers(rows, x);
    }
    if codes != [] {
      assert codes[0] in codes;
    }
  }

  lemma {:induction false} BlockersConcat(s: seq<Issue>, t: seq<Issue>)
    ensures Blockers(s + t) == Blockers(s) + Blockers(t)
  {
    assert forall x :: x in s + t <==> x in s || x in t;
  }

  /** A blocker is cited by the disposition of its row, and nothing else is cited. */
  lemma {:induction false} BlockersAreCited(rows: seq<Row>, batch: seq<Issue>)
    requires Numbered(rows) && AboutRows(rows, batch)
    ensures CitedBlockers(ResultOf(rows, batch).dispositions) == Blockers(ResultOf(rows, batch).issues)
  {
    var issues := RowIssues(rows) + batch;
    var late := LateIssues(rows, issues);
    var ds := Dispositions(rows, issues);
    BlockersConcat(issues, late);
    forall n: nat, code ensures (n, code) in CitedBlockers(ds) <==> (n, code) in Blockers(issues) || (n, code) in Blockers(late) {
      CitedOrLate(rows, batch, n, code);
    }
    assert forall pair :: pair in CitedBlockers(ds) <==> (pair.0, pair.1) in CitedBlockers(ds);
  }

  lemma {:induction false} CitedOrLate(rows: seq<Row>, batch: seq<Issue>, n: nat, code: string)
    requires Numbered(rows) && AboutRows(rows, batch)
    ensures var issues := RowIssues(rows) + batch;
      (n, code) in CitedBlockers(Dispositions(rows, issues))
      <==> (n, code) in Blockers(issues) || (n, code) in Blockers(LateIssues(rows, issues))
  {
    var issues := RowIssues(rows) + batch;
    CitedByRow(rows, issues, n, code);
    if (n, code) in Blockers(issues) {
      BlockedRowExists(rows, batch, n, code);
    }
    LateBlocker(rows, issues, n, code);
    BlockersOfMembers(issues, n);
    DistinctIsDistinct(BlockersOf(issues, n));
    hide BlockersOf, Distinct, RowIssues, LateIssues, Dispositions, CitedBlockers, Blockers, Numbered, AboutRows;
  }

  lemma {:induction false} CitedByRow(rows: seq<Row>, issues: seq<Issue>, n: nat, code: string)
    ensures (n, code) in CitedBlockers(Dispositions(rows, issues))
      <==> exists row :: row in rows && row.number == n && code in DispositionOf(row, issues).codes
  {
    hide DispositionOf;
    var ds := Dispositions(rows, issues);
    if row :| row in rows && row.number == n && code in DispositionOf(row, issues).codes {
      var i :| 0 <= i < |rows| && rows[i] == row;
      assert ds[i] in ds;
      assert ds[i].row == row.number by { RowOf(row, issues); }
      assert (ds[i].row, code) in CitedBlockers(ds);
    }
    if (n, code) in CitedBlockers(ds) {
      var d :| d in ds && code in d.codes && d.row == n;
      var i :| 0 <= i < |ds| && ds[i] == d;
      RowOf(rows[i], issues);
      assert rows[i] in rows;
    }
  }

  lemma RowOf(row: Row, issues: seq<Issue>)
    ensures DispositionOf(row, issues).row == row.number
  {
    hide BlockersOf, Distinct;
  }

  lemma {:induction false} BlockedRowExists(rows: seq<Row>, batch: seq<Issue>, n: nat, code: string)
    requires AboutRows(rows, batch) && (n, code) in Blockers(RowIssues(rows) + batch)
    ensures exists row :: row in rows && row.number == n
  {
    hide RowIssues;
    var x :| x in RowIssues(rows) + batch && x.blocking && x.row == Some(n) && x.code == code;
    RowIssueMembers(rows, x);
  }

  lemma {:induction false} LateBlocker(rows: seq<Row>, issues: seq<Issue>, n: nat, code: string)
    ensures (n, code) in Blockers(LateIssues(rows, issues))
      <==> exists row :: row in rows && row.number == n && BlockersOf(issues, n) == [] && !row.reading.Readable?
             && code == if row.reading.Unbuildable? then FAILED else row.reading.code
  {
    hide LateIssues, BlockersOf;
    var late := LateIssues(rows, issues);
    if (n, code) in Blockers(late) {
      var x :| x in late && x.blocking && x.row == Some(n) && x.code == code;
      LateIssueMembers(rows, issues, x);
    }
    if row :| row in rows && row.number == n && BlockersOf(issues, n) == [] && !row.reading.Readable?
              && code == if row.reading.Unbuildable? then FAILED else row.reading.code {
      var x := Issue(Some(n), code, true);
      LateIssueMembers(rows, issues, x);
      assert x in late;
      assert (x.row.value, x.code) in Blockers(late);
    }
  }

  /** Every row is disposed of once: a readable row without blockers becomes its event, any other row is
      quarantined with its own blockers. The result is accepted if and only if the events that went
      through have different ids, and nothing else can make its constructor raise. */
  lemma {:induction false} EveryRowDisposedOnce(rows: seq<Row>, batch: seq<Issue>)
    requires Numbered(rows) && AboutRows(rows, batch)
    ensures var r := ResultOf(rows, batch);
      && |r.dispositions| == |rows|
      && (forall i | 0 <= i < |rows| ::
           && r.dispositions[i].row == rows[i].number
           && (r.dispositions[i].normalized <==> GoesThrough(rows[i], RowIssues(rows) + batch)))
      && (ResultAccepted(r) <==> NoRepeats(Ids(r.events)))
  {
    var issues := RowIssues(rows) + batch;
    var r := ResultOf(rows, batch);
    hide BlockersOf, Distinct, RowIssues, LateIssues, EventsOf, DispositionAccepted, CitedBlockers, Blockers, DisposedIds, NoRepeats;
    BlockersAreCited(rows, batch);
    SameIds(rows, issues);
    NoFileBlockers(rows, batch);
    DispositionsInOrder(rows, batch);
    hide Ids, Dispositions, Numbered, AboutRows;
    assert multiset(Ids(r.events)) == multiset(DisposedIds(r.dispositions));
  }

  lemma {:induction false} NoFileBlockers(rows: seq<Row>, batch: seq<Issue>)
    requires AboutRows(rows, batch)
    ensures forall x | x in ResultOf(rows, batch).issues && x.blocking :: x.row.Some?
  {
    hide BlockersOf, RowIssues, LateIssues;
    forall x | x in ResultOf(rows, batch).issues && x.blocking ensures x.row.Some? {
      RowIssueMembers(rows, x);
      LateIssueMembers(rows, RowIssues(rows) + batch, x);
    }
  }

  lemma {:induction false} DispositionsInOrder(rows: seq<Row>, batch: seq<Issue>)
    requires Numbered(rows) && AboutRows(rows, batch)
    ensures var ds := ResultOf(rows, batch).dispositions;
      && |ds| == |rows| && NoRepeats(RowNumbers(ds)) && (forall d | d in ds :: DispositionAccepted(d))
      && forall i | 0 <= i < |rows| ::
           && ds[i].row == rows[i].number
           && (ds[i].normalized <==> GoesThrough(rows[i], RowIssues(rows) + batch))
  {
    hide BlockersOf, Distinct, RowIssues, DispositionAccepted;
    var issues := RowIssues(rows) + batch;
    var ds := ResultOf(rows, batch).dispositions;
    forall i | 0 <= i < |rows|
      ensures DispositionAccepted(ds[i]) && ds[i].row == rows[i].number && (ds[i].normalized <==> GoesThrough(rows[i], issues))
    {
      EveryDispositionIsAccepted(rows, batch, rows[i]);
    }
  }

  // ---- each disposition ---------------------------------------------------------------------

  predicate Blocks(issues: seq<Issue>, row: nat, code: string) {
    Issue(Some(row), code, true) in issues
  }

  /** What a row comes to: quarantined under the codes that block it, each once; or else, by its reading, normalized,
      failed, or quarantined under its own code. */
  lemma {:induction false} DispositionTable(rows: seq<Row>, batch: seq<Issue>, i: nat)
    requires i < |rows|
    ensures i < |ResultOf(rows, batch).dispositions|
    ensures var d, issues := ResultOf(rows, batch).dispositions[i], RowIssues(rows) + batch;
      && d.row == rows[i].number
      && (if exists code :: Blocks(issues, rows[i].number, code) then
            !d.normalized && d.eventIds == [] && NoRepeats(d.codes) && forall code :: code in d.codes <==> Blocks(issues, rows[i].number, code)
          else match rows[i].reading
            case Readable(event) => d == Disposition(rows[i].number, true, [event.eventId], [])
            case Unbuildable => d == Disposition(rows[i].number, false, [], ["NORMALIZATION_FAILED"])
            case Unreadable(code) => d == Disposition(rows[i].number, false, [], [code]))
  {
    hide RowIssues, Distinct, EventsOf, LateIssues;
    var issues := RowIssues(rows) + batch;
    var codes := BlockersOf(issues, rows[i].number);
    BlockersOfMembers(issues, rows[i].number);
    DistinctIsDistinct(codes);
    hide BlockersOf;
    forall code ensures code in codes <==> Blocks(issues, rows[i].number, code) {
      assert (rows[i].number, code) in Blockers(issues) <==> Blocks(issues, rows[i].number, code) by {
        BlockerIs(issues, rows[i].number, code);
      }
    }
    assert codes != [] ==> codes[0] in codes;
  }

  lemma {:induction false} BlockerIs(issues: seq<Issue>, row: nat, code: string)
    ensures (row, code) in Blockers(issues) <==> Blocks(issues, row, code)
  {
    if (row, code) in Blockers(issues) {
      var x :| x in issues && x.blocking && x.row.Some? && (x.row.value, x.code) == (row, code);
      assert x == Issue(Some(row), code, true);
    }
  }
}
