/**
 * The submissions and documents tables: row selection, the header checkbox flags, the
 * due-date text, the peril summary and the status changes a row offers.
 */
module Tables {
  import opened Seqs
  import opened Text
  import opened SubmissionTypes
  import DocumentContext

  // ---------------------------------------------------------------------------
  // Selection (identical in both tables)

  function SubmissionIds(rows: seq<Submission>): (ids: seq<string>)
    ensures |ids| == |rows|
    ensures forall i | 0 <= i < |rows| :: ids[i] == rows[i].id
  {
    if rows == [] then [] else [rows[0].id] + SubmissionIds(rows[1..])
  }

  function DocumentIds(rows: seq<DocumentContext.Document>): (ids: seq<string>)
    ensures |ids| == |rows|
    ensures forall i | 0 <= i < |rows| :: ids[i] == rows[i].id
  {
    if rows == [] then [] else [rows[0].id] + DocumentIds(rows[1..])
  }

  /** `handleSelectAll`: every row id in table order, or nothing. */
  function SelectAll(rowIds: seq<string>, checked: bool): (r: seq<string>)
    ensures checked ==> r == rowIds
    ensures !checked ==> r == []
  {
    if checked then rowIds else []
  }

  /** `handleSelectSubmission` / `handleSelectDocument`. */
  function SelectOne(selected: seq<string>, id: string, checked: bool): seq<string> {
    if checked then selected + [id] else RemoveAll(selected, id)
  }

  /**
   * Selecting appends the id; deselecting removes every occurrence and keeps the rest in
   * order; deselecting right after selecting an unselected id restores the selection.
   */
  lemma SelectOneEffect(selected: seq<string>, id: string)
    ensures SelectOne(selected, id, true) == selected + [id]
    ensures var r := SelectOne(selected, id, false);
      id !in r && IsSubsequence(r, selected) && multiset(r) == multiset(selected)[id := 0]
    ensures id !in selected ==> SelectOne(SelectOne(selected, id, true), id, false) == selected
  {
    if id !in selected {
      RemoveAllAppendAbsent(selected, id);
    }
  }

  /** The header checkbox: ticked when the counts agree, indeterminate when some are selected. */
  predicate AllSelected(rowCount: nat, selectedCount: nat) {
    rowCount > 0 && selectedCount == rowCount
  }

  predicate SomeSelected(rowCount: nat, selectedCount: nat) {
    selectedCount > 0 && selectedCount < rowCount
  }

  /**
   * The two flags are never both set, neither is set with nothing selected, and selecting
   * all rows of a non-empty table sets exactly the first.
   */
  lemma FlagsExclusive(rowIds: seq<string>, selectedCount: nat)
    ensures !(AllSelected(|rowIds|, selectedCount) && SomeSelected(|rowIds|, selectedCount))
    ensures !AllSelected(|rowIds|, 0) && !SomeSelected(|rowIds|, 0)
    ensures rowIds != [] ==>
      AllSelected(|rowIds|, |SelectAll(rowIds, true)|) && !SomeSelected(|rowIds|, |SelectAll(rowIds, true)|)
  {
  }

  /** The flags compare counts, not ids: one row selected twice ticks the box of a two-row table. */
  lemma FlagsCountNotIds(a: string, b: string)
    requires a != b
    ensures b !in SelectOne([a], a, true) && AllSelected(|[a, b]|, |SelectOne([a], a, true)|)
  {
  }

  // ---------------------------------------------------------------------------
  // Due dates

  const MS_PER_DAY := 86400000

  /** `Math.ceil((due - now) / MS_PER_DAY)` for times in milliseconds. */
  function DaysUntilDue(due: int, now: int): (days: int)
    ensures (days - 1) * MS_PER_DAY < due - now <= days * MS_PER_DAY
  {
    -((now - due) / MS_PER_DAY)
  }

  /** The text under the due date. */
  function DueText(days: int): (r: string)
    ensures r == "Due today" <==> days == 0
    ensures r == "Due tomorrow" <==> days == 1
    ensures days < 0 <==> EndsWith(r, " days overdue")
    ensures days > 1 <==> EndsWith(r, " days left")
    ensures days < 0 ==> r[..|r| - 13] == NatToString(-days)
    ensures days > 1 ==> r[..|r| - 10] == NatToString(days)
  {
    if days < 0 then
      var r := NatToString(-days) + " days overdue";
      assert r[|r| - 1] == 'e' && r[|r| - 4..] != "left";
      r
    else if days == 0 then "Due today"
    else if days == 1 then "Due tomorrow"
    else
      var r := NatToString(days) + " days left";
      assert r[|r| - 1] == 't' && r[|r| - 2] == 'f';
      r
  }

  /** A due date up to a day in the past still reads "Due today"; one that far ahead reads "Due tomorrow". */
  lemma DueTodayWindow(due: int, now: int)
    ensures DueText(DaysUntilDue(due, now)) == "Due today" <==> now - MS_PER_DAY < due <= now
    ensures DueText(DaysUntilDue(due, now)) == "Due tomorrow" <==> now < due <= now + MS_PER_DAY
  {
  }

  // ---------------------------------------------------------------------------
  // Row contents

  /** The status changes a row's menu offers. */
  function OfferedTransitions(status: SubmissionStatus): (r: seq<SubmissionStatus>)
    ensures r != [] <==> status == PendingReview || status == AwaitingApproval
    ensures forall t | t in r :: t != status
  {
    match status
    case PendingReview => [UnderAnalysis]
    case AwaitingApproval => [Approved, Declined]
    case _ => []
  }

  /** Decided submissions offer no further change, and approval can only follow awaiting approval. */
  lemma TransitionsFromDecidedAreNone(status: SubmissionStatus)
    ensures status in {Approved, Declined, Bound, Expired} ==> OfferedTransitions(status) == []
    ensures Approved in OfferedTransitions(status) ==> status == AwaitingApproval
  {
  }

  /** The peril cell: the first two perils, then " +k" for the k others. */
  function PerilSummary(perils: seq<string>): string {
    Join(SliceTo(perils, 2), ", ") + (if |perils| > 2 then " +" + NatToString(|perils| - 2) else "")
  }

  /** The cell names every peril when there are at most two; otherwise the two named and the count shown add up to all. */
  lemma PerilSummaryAccounts(perils: seq<string>)
    ensures |perils| <= 2 ==> PerilSummary(perils) == Join(perils, ", ")
    ensures |perils| > 2 ==>
      var suffix := NatToString(|perils| - 2);
      EndsWith(PerilSummary(perils), " +" + suffix) && 2 + DecimalValue(suffix) == |perils|
  {
    if |perils| > 2 {
      DecimalRoundTrip(|perils| - 2);
    }
  }
}
