/**
 * The analysis client of the frontend: the bounded status poller, the complete
 * submit-poll-fetch workflow with its progress reports, and the risk and confidence
 * label helpers.
 *
 * Requests are not performed: the replies of the status endpoint are an input sequence
 * whose k-th element answers the k-th request, and a request past its end fails. Sleeps
 * between requests have no effect on the outcome and are not modelled.
 */
module TaskApi {
  import opened Wrappers
  import opened TaskTypes

  const DEFAULT_MAX_ATTEMPTS: int := 60
  const DEFAULT_INTERVAL_MS: int := 2000

  /** One reply of the status endpoint: a thrown request error or a status record. */
  datatype Response = RequestError | Reply(status: TaskStatus)

  /** The only error `pollTaskStatus` lets escape. */
  const POLL_TIMEOUT: string := "Task polling timeout"

  datatype PollOutcome = Finished(final: TaskStatus) | TimedOut

  /** What one call of the poller does: its outcome, the records passed to the callback in order, and the number of requests made. */
  datatype PollRun = PollRun(outcome: PollOutcome, updates: seq<TaskStatus>, requests: nat)

  /** Only these two spellings stop the poller. */
  predicate IsTerminal(s: TaskStatus) {
    s.status == SUCCESS || s.status == FAILED
  }

  /** The reply to the request made at attempt `k`. */
  function ReplyAt(source: seq<Response>, k: nat): Response {
    if k < |source| then source[k] else RequestError
  }

  predicate TerminalAt(source: seq<Response>, k: nat) {
    ReplyAt(source, k).Reply? && IsTerminal(ReplyAt(source, k).status)
  }

  /** The status records among the replies to the requests `0..n`, in order. */
  function RepliesBefore(source: seq<Response>, n: nat): (r: seq<TaskStatus>)
    ensures |r| <= n
  {
    if n == 0 then []
    else
      var rest := RepliesBefore(source, n - 1);
      match ReplyAt(source, n - 1)
      case Reply(s) => rest + [s]
      case RequestError => rest
  }

  /** The poller's behaviour from attempt `attempts` on. */
  function PollFrom(source: seq<Response>, maxAttempts: int, attempts: nat): PollRun
    decreases if attempts < maxAttempts then maxAttempts - attempts else 0
  {
    if attempts >= maxAttempts then PollRun(TimedOut, [], 0)
    else
      match ReplyAt(source, attempts)
      case RequestError =>
        var rest := PollFrom(source, maxAttempts, attempts + 1);
        PollRun(rest.outcome, rest.updates, rest.requests + 1)
      case Reply(s) =>
        if IsTerminal(s) then PollRun(Finished(s), [s], 1)
        else
          var rest := PollFrom(source, maxAttempts, attempts + 1);
          PollRun(rest.outcome, [s] + rest.updates, rest.requests + 1)
  }

  function Poll(source: seq<Response>, maxAttempts: int): PollRun {
    PollFrom(source, maxAttempts, 0)
  }

  /** `run` preceded by `updates` and `requests` already done. */
  function After(updates: seq<TaskStatus>, requests: nat, run: PollRun): PollRun {
    PollRun(run.outcome, updates + run.updates, requests + run.requests)
  }

  /**
   * `pollTaskStatus`: request the status until a terminal record arrives or the attempts
   * run out. Each record is passed to the callback (collected in `updates`); a request
   * error costs one attempt and is swallowed.
   */
  method PollTaskStatus(source: seq<Response>, maxAttempts: int)
    returns (outcome: PollOutcome, updates: seq<TaskStatus>, requests: nat)
    ensures PollRun(outcome, updates, requests) == Poll(source, maxAttempts)
  {
    var attempts: nat := 0;
    updates := [];
    requests := 0;
    while attempts < maxAttempts
      invariant requests == attempts
      invariant After(updates, requests, PollFrom(source, maxAttempts, attempts)) == Poll(source, maxAttempts)
      decreases maxAttempts - attempts
    {
      var response := ReplyAt(source, attempts);
      requests := requests + 1;
      match response {
        case Reply(s) =>
          updates := updates + [s];
          if s.status == SUCCESS || s.status == FAILED {
            return Finished(s), updates, requests;
          }
          assert PollFrom(source, maxAttempts, attempts).updates
              == [s] + PollFrom(source, maxAttempts, attempts + 1).updates;
          attempts := attempts + 1;
        case RequestError =>
          attempts := attempts + 1;
          if attempts >= maxAttempts {
            return TimedOut, updates, requests;
          }
      }
    }
    return TimedOut, updates, requests;
  }

  lemma {:induction false} PollFromFacts(source: seq<Response>, maxAttempts: int, attempts: nat)
    ensures var run := PollFrom(source, maxAttempts, attempts);
      && (attempts >= maxAttempts ==> run.requests == 0)
      && (attempts < maxAttempts ==> 1 <= run.requests <= maxAttempts - attempts)
      && (forall j | attempts <= j < attempts + run.requests - 1 :: !TerminalAt(source, j))
      && (run.outcome.Finished? ==>
            TerminalAt(source, attempts + run.requests - 1)
            && run.outcome.final == ReplyAt(source, attempts + run.requests - 1).status)
      && (run.outcome.TimedOut? ==>
            run.requests == (if attempts < maxAttempts then maxAttempts - attempts else 0))
      && RepliesBefore(source, attempts) + run.updates == RepliesBefore(source, attempts + run.requests)
    decreases if attempts < maxAttempts then maxAttempts - attempts else 0
  {
    if attempts < maxAttempts {
      PollFromFacts(source, maxAttempts, attempts + 1);
      var rest := PollFrom(source, maxAttempts, attempts + 1);
      match ReplyAt(source, attempts) {
        case RequestError =>
          assert RepliesBefore(source, attempts + 1) == RepliesBefore(source, attempts);
        case Reply(s) =>
          if !IsTerminal(s) {
            assert RepliesBefore(source, attempts + 1) == RepliesBefore(source, attempts) + [s];
            assert RepliesBefore(source, attempts) + ([s] + rest.updates)
                == RepliesBefore(source, attempts + 1) + rest.updates;
          }
      }
    }
  }

  /**
   * The poller makes at most `maxAttempts` requests, none when `maxAttempts <= 0`, and
   * passes every record it receives to the callback exactly once, in order.
   */
  lemma PollBounded(source: seq<Response>, maxAttempts: int)
    ensures Poll(source, maxAttempts).requests <= (if maxAttempts > 0 then maxAttempts else 0)
    ensures maxAttempts <= 0 ==> Poll(source, maxAttempts) == PollRun(TimedOut, [], 0)
    ensures Poll(source, maxAttempts).updates == RepliesBefore(source, Poll(source, maxAttempts).requests)
  {
    PollFromFacts(source, maxAttempts, 0);
  }

  /**
   * The poller returns the first terminal record and makes no request after it; if no
   * request within the budget yields a terminal record it times out after using every attempt.
   */
  lemma PollStopsAtFirstTerminal(source: seq<Response>, maxAttempts: int)
    ensures var run := Poll(source, maxAttempts);
      && (forall j | 0 <= j < run.requests - 1 :: !TerminalAt(source, j))
      && (run.outcome.Finished? <==> exists k | 0 <= k < maxAttempts :: TerminalAt(source, k))
      && (run.outcome.Finished? ==>
            TerminalAt(source, run.requests - 1) && run.outcome.final == ReplyAt(source, run.requests - 1).status)
      && (run.outcome.TimedOut? ==> run.requests == (if maxAttempts > 0 then maxAttempts else 0))
  {
    PollFromFacts(source, maxAttempts, 0);
    var run := Poll(source, maxAttempts);
    if run.outcome.TimedOut? && exists k | 0 <= k < maxAttempts :: TerminalAt(source, k) {
      var k :| 0 <= k < maxAttempts && TerminalAt(source, k);
      assert k < run.requests - 1 || k == run.requests - 1;
      if k == run.requests - 1 {
        PollTerminalLast(source, maxAttempts, 0);
      }
    }
  }

  /** A run that ends on a terminal reply finished. */
  lemma {:induction false} PollTerminalLast(source: seq<Response>, maxAttempts: int, attempts: nat)
    requires attempts < maxAttempts
    requires TerminalAt(source, attempts + PollFrom(source, maxAttempts, attempts).requests - 1)
    ensures PollFrom(source, maxAttempts, attempts).outcome.Finished?
    decreases maxAttempts - attempts
  {
    var run := PollFrom(source, maxAttempts, attempts);
    if !TerminalAt(source, attempts) {
      PollFromFacts(source, maxAttempts, attempts + 1);
      if attempts + 1 < maxAttempts {
        PollTerminalLast(source, maxAttempts, attempts + 1);
      }
    }
  }

  // ---------------------------------------------------------------------------
  // analyzeFile

  /** One call of the progress callback. */
  datatype ProgressReport = ProgressReport(status: string, progress: int)

  datatype AnalyzeOutcome = Analysed(result: AnalysisResult) | Failed(message: string)

  /** The report forwarded for one polled status record. */
  function PollReport(s: TaskStatus): (r: ProgressReport)
    ensures r.progress != 0
    ensures r.status != ""
  {
    ProgressReport(StringOr(s.currentStatus, "Processing..."), NumberOr(s.progress, 10))
  }

  function PollReports(updates: seq<TaskStatus>): (r: seq<ProgressReport>)
    ensures |r| == |updates|
    ensures forall i | 0 <= i < |updates| :: r[i] == PollReport(updates[i])
  {
    if updates == [] then [] else [PollReport(updates[0])] + PollReports(updates[1..])
  }

  const SUBMITTING: ProgressReport := ProgressReport("Submitting file...", 0)
  const PROCESSING_REPORT: ProgressReport := ProgressReport("Processing...", 10)
  const RETRIEVING: ProgressReport := ProgressReport("Retrieving results...", 90)
  const COMPLETE: ProgressReport := ProgressReport("Complete!", 100)

  /**
   * `analyzeFile`: submit the file (its reply is `submitted`: a task id or the thrown
   * error), poll with the default budget, and on success take the result from the final
   * status or else from the result endpoint (its reply is `fetched`).
   */
  method AnalyzeFile(submitted: Result<string>, source: seq<Response>, fetched: Result<AnalysisResult>)
    returns (outcome: AnalyzeOutcome, reports: seq<ProgressReport>)
    ensures reports != [] && reports[0] == SUBMITTING
    ensures submitted.Failure? ==> outcome == Failed(submitted.error) && reports == [SUBMITTING]
    ensures submitted.Success? ==>
      var run := Poll(source, DEFAULT_MAX_ATTEMPTS);
      && |reports| >= 2 + |run.updates|
      && reports[..2 + |run.updates|] == [SUBMITTING, PROCESSING_REPORT] + PollReports(run.updates)
      && match run.outcome
         case TimedOut =>
           outcome == Failed(POLL_TIMEOUT) && |reports| == 2 + |run.updates|
         case Finished(final) =>
           if final.status == FAILED then
             outcome == Failed(StringOr(final.error, "Analysis failed")) && |reports| == 2 + |run.updates|
           else if final.result.Some? then
             outcome == Analysed(final.result.value) && reports[2 + |run.updates|..] == [COMPLETE]
           else if fetched.Success? then
             outcome == Analysed(fetched.value) && reports[2 + |run.updates|..] == [RETRIEVING, COMPLETE]
           else
             outcome == Failed(fetched.error) && reports[2 + |run.updates|..] == [RETRIEVING]
    ensures outcome.Analysed? ==> reports[|reports| - 1] == COMPLETE
    ensures forall i | 1 <= i < |reports| :: reports[i].progress != 0
  {
    reports := [SUBMITTING];
    if submitted.Failure? {
      return Failed(submitted.error), reports;
    }
    reports := reports + [PROCESSING_REPORT];
    var pollOutcome, updates, _ := PollTaskStatus(source, DEFAULT_MAX_ATTEMPTS);
    reports := reports + PollReports(updates);
    // The reports made after polling: 100 for a result in hand, 90 before the fetch and
    // 100 after a successful one.
    var later: seq<ProgressReport> := [];
    match pollOutcome {
      case TimedOut =>
        outcome := Failed(POLL_TIMEOUT);
      case Finished(final) =>
        if final.status == FAILED {
          outcome := Failed(StringOr(final.error, "Analysis failed"));
        } else if final.result.Some? {
          later := [COMPLETE];
          outcome := Analysed(final.result.value);
        } else if fetched.Failure? {
          later := [RETRIEVING];
          outcome := Failed(fetched.error);
        } else {
          later := [RETRIEVING, COMPLETE];
          outcome := Analysed(fetched.value);
        }
    }
    SplitAppend(reports, later);
    reports := reports + later;
  }

  /** The reports made so far are the prefix of the reports after more are appended. */
  lemma SplitAppend(before: seq<ProgressReport>, after: seq<ProgressReport>)
    ensures (before + after)[..|before|] == before && (before + after)[|before|..] == after
  {
  }

  // ---------------------------------------------------------------------------
  // Label and colour helpers

  /** Severity rank of a risk label: 0 for Low up to 3 for High. */
  function RiskRank(lbl: string): nat {
    if lbl == "High Risk" then 3
    else if lbl == "Medium-High Risk" then 2
    else if lbl == "Medium Risk" then 1
    else 0
  }

  function RiskScoreLabel(score: real): (lbl: string)
    ensures lbl in {"High Risk", "Medium-High Risk", "Medium Risk", "Low Risk"}
    ensures lbl == "High Risk" <==> score >= 0.8
    ensures lbl == "Medium-High Risk" <==> 0.6 <= score < 0.8
    ensures lbl == "Medium Risk" <==> 0.4 <= score < 0.6
    ensures lbl == "Low Risk" <==> score < 0.4
  {
    if score >= 0.8 then "High Risk"
    else if score >= 0.6 then "Medium-High Risk"
    else if score >= 0.4 then "Medium Risk"
    else "Low Risk"
  }

  function RiskScoreColor(score: real): (color: string)
    ensures color in {"text-red-600 bg-red-100", "text-orange-600 bg-orange-100",
                      "text-yellow-600 bg-yellow-100", "text-green-600 bg-green-100"}
  {
    if score >= 0.8 then "text-red-600 bg-red-100"
    else if score >= 0.6 then "text-orange-600 bg-orange-100"
    else if score >= 0.4 then "text-yellow-600 bg-yellow-100"
    else "text-green-600 bg-green-100"
  }

  /** The colour a risk label is shown in. */
  function RiskLabelColor(lbl: string): string {
    if lbl == "High Risk" then "text-red-600 bg-red-100"
    else if lbl == "Medium-High Risk" then "text-orange-600 bg-orange-100"
    else if lbl == "Medium Risk" then "text-yellow-600 bg-yellow-100"
    else "text-green-600 bg-green-100"
  }

  /**
   * The risk colour and label helpers use the same bands, and a higher score never gets
   * a less severe label.
   */
  lemma RiskHelpersAgree(score: real, higher: real)
    requires score <= higher
    ensures RiskScoreColor(score) == RiskLabelColor(RiskScoreLabel(score))
    ensures RiskRank(RiskScoreLabel(score)) <= RiskRank(RiskScoreLabel(higher))
  {
  }

  function ConfidenceRank(lbl: string): nat {
    if lbl == "High Confidence" then 2 else if lbl == "Medium Confidence" then 1 else 0
  }

  function ConfidenceLabel(confidence: real): (lbl: string)
    ensures lbl in {"High Confidence", "Medium Confidence", "Low Confidence"}
    ensures lbl == "High Confidence" <==> confidence >= 0.8
    ensures lbl == "Medium Confidence" <==> 0.6 <= confidence < 0.8
    ensures lbl == "Low Confidence" <==> confidence < 0.6
  {
    if confidence >= 0.8 then "High Confidence"
    else if confidence >= 0.6 then "Medium Confidence"
    else "Low Confidence"
  }

  function ConfidenceColor(confidence: real): (color: string)
    ensures color in {"text-green-600 bg-green-100", "text-yellow-600 bg-yellow-100", "text-red-600 bg-red-100"}
  {
    if confidence >= 0.8 then "text-green-600 bg-green-100"
    else if confidence >= 0.6 then "text-yellow-600 bg-yellow-100"
    else "text-red-600 bg-red-100"
  }

  function ConfidenceLabelColor(lbl: string): string {
    if lbl == "High Confidence" then "text-green-600 bg-green-100"
    else if lbl == "Medium Confidence" then "text-yellow-600 bg-yellow-100"
    else "text-red-600 bg-red-100"
  }

  /** Confidence colour and label use the same bands, monotone in the confidence. */
  lemma ConfidenceHelpersAgree(confidence: real, higher: real)
    requires confidence <= higher
    ensures ConfidenceColor(confidence) == ConfidenceLabelColor(ConfidenceLabel(confidence))
    ensures ConfidenceRank(ConfidenceLabel(confidence)) <= ConfidenceRank(ConfidenceLabel(higher))
  {
  }
}
