/**
 * The dashboard's submission counters: the total, how many arrived in the last week, and
 * how many wait for review, are being worked on, or wait for approval.
 */
module Stats {
  import opened Seqs

  /** The two columns the counters read; `createdAt` is in milliseconds since the epoch. */
  datatype StatsInput = StatsInput(status: string, createdAt: int)

  datatype SubmissionStats = SubmissionStats(total: nat, totalDelta: nat, pendingReview: nat, inProgress: nat, awaitingApproval: nat)

  const IN_PROGRESS_STATUSES: seq<string> := ["under_analysis", "pricing_review", "portfolio_check"]

  function IsPendingReview(s: StatsInput): bool { s.status == "pending_review" }
  function IsInProgress(s: StatsInput): bool { s.status in IN_PROGRESS_STATUSES }
  function IsAwaitingApproval(s: StatsInput): bool { s.status == "awaiting_approval" }

  function CreatedSince(oneWeekAgo: int): StatsInput -> bool {
    (s: StatsInput) => s.createdAt >= oneWeekAgo
  }

  /**
   * `aggregateSubmissionStats`; each `filter(...).length` is a count. The moment one week before now is a parameter: the source
   * takes today's local date and steps the calendar day back by seven.
   */
  function Aggregate(submissions: seq<StatsInput>, oneWeekAgo: int): (stats: SubmissionStats)
    ensures stats.total == |submissions|
    ensures stats.totalDelta <= stats.total
    ensures stats.pendingReview + stats.inProgress + stats.awaitingApproval <= stats.total
  {
    ExclusiveCountsBounded(submissions, IsPendingReview, IsInProgress, IsAwaitingApproval);
    SubmissionStats(
      |submissions|,
      CountWhere(submissions, CreatedSince(oneWeekAgo)),
      CountWhere(submissions, IsPendingReview),
      CountWhere(submissions, IsInProgress),
      CountWhere(submissions, IsAwaitingApproval))
  }

  function OneIf(b: bool): nat { if b then 1 else 0 }

  /**
   * Each counter counts exactly its statuses: one more submission raises the counters whose
   * condition it meets by one and leaves the others as they were.
   */
  lemma AggregateAppend(submissions: seq<StatsInput>, s: StatsInput, oneWeekAgo: int)
    ensures var before := Aggregate(submissions, oneWeekAgo);
      var after := Aggregate(submissions + [s], oneWeekAgo);
      && after.total == before.total + 1
      && after.totalDelta == before.totalDelta + OneIf(s.createdAt >= oneWeekAgo)
      && after.pendingReview == before.pendingReview + OneIf(s.status == "pending_review")
      && after.inProgress == before.inProgress
           + OneIf(s.status == "under_analysis" || s.status == "pricing_review" || s.status == "portfolio_check")
      && after.awaitingApproval == before.awaitingApproval + OneIf(s.status == "awaiting_approval")
  {
    CountSnoc(submissions, s, CreatedSince(oneWeekAgo));
    CountSnoc(submissions, s, IsPendingReview);
    CountSnoc(submissions, s, IsInProgress);
    CountSnoc(submissions, s, IsAwaitingApproval);
  }

  lemma CountSnoc(submissions: seq<StatsInput>, s: StatsInput, p: StatsInput -> bool)
    ensures CountWhere(submissions + [s], p) == CountWhere(submissions, p) + OneIf(p(s))
  {
    CountWhereAppend(submissions, [s], p);
    assert CountWhere([s], p) == OneIf(p(s));
  }

  /** Submissions in any other status, such as approved or declined, only count in the total. */
  lemma OtherStatusesOnlyInTotal(submissions: seq<StatsInput>, s: StatsInput, oneWeekAgo: int)
    requires s.status !in {"pending_review", "under_analysis", "pricing_review", "portfolio_check", "awaiting_approval"}
    ensures var before := Aggregate(submissions, oneWeekAgo);
      var after := Aggregate(submissions + [s], oneWeekAgo);
      after.pendingReview + after.inProgress + after.awaitingApproval
        == before.pendingReview + before.inProgress + before.awaitingApproval
  {
    AggregateAppend(submissions, s, oneWeekAgo);
  }

  /** A later week boundary counts no more submissions as new. */
  lemma {:induction false} DeltaMonotone(submissions: seq<StatsInput>, a: int, b: int)
    requires a <= b
    ensures Aggregate(submissions, b).totalDelta <= Aggregate(submissions, a).totalDelta
    decreases |submissions|
  {
    if submissions != [] {
      var init := submissions[..|submissions| - 1];
      var last := submissions[|submissions| - 1];
      assert submissions == init + [last];
      DeltaMonotone(init, a, b);
      AggregateAppend(init, last, a);
      AggregateAppend(init, last, b);
    }
  }
}
