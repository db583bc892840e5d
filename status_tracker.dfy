/**
 * The status tracker component: a second, timer-driven poller of one task's status, with
 * its badge label and colour.
 *
 * The component's state (`status`, `isPolling`, `error`) is a class; the `onComplete` and
 * `onError` callbacks are recorded, in call order, in `callbacks`. One poll is split into
 * its synchronous start and the completion of its fetch, so that a second poll can be
 * started while one is in flight.
 */
module StatusTracker {
  import opened Wrappers
  import opened TaskTypes
  import opened Text

  /** The reply of the fetch of `/api/task-status/<id>`. */
  datatype FetchReply =
    | Body(data: TaskStatus)                       // 2xx: the decoded record
    | HttpFailure(code: int, statusText: string)   // a non-2xx response
    | Thrown(message: Option<string>)              // a thrown value; `None` when it is not an Error

  datatype Callback = Completed(result: AnalysisResult) | Errored(message: string)

  /** The message a failed fetch stores and reports. */
  function FailureMessage(reply: FetchReply): string
    requires !reply.Body?
  {
    match reply
    case HttpFailure(code, text) => "HTTP " + IntToString(code) + ": " + text
    case Thrown(m) => m.GetOr("Failed to check status")
  }

  /** The callbacks one completed fetch triggers. */
  function Reaction(reply: FetchReply, hasOnComplete: bool, hasOnError: bool): (r: seq<Callback>)
    ensures |r| <= 1
    ensures r != [] && r[0].Completed? <==>
      reply.Body? && reply.data.status == SUCCESS && reply.data.result.Some? && hasOnComplete
    ensures r != [] && r[0].Completed? ==> r[0].result == reply.data.result.value
    ensures r != [] && r[0].Errored? <==>
      hasOnError && (!reply.Body? || reply.data.status == FAILED)
    ensures r != [] && r[0].Errored? && reply.Body? ==> r[0].message == StringOr(reply.data.error, "Analysis failed")
    ensures r != [] && r[0].Errored? && !reply.Body? ==> r[0].message == FailureMessage(reply)
  {
    match reply
    case Body(data) =>
      if data.status == SUCCESS && data.result.Some? && hasOnComplete then [Completed(data.result.value)]
      else if data.status == FAILED && hasOnError then [Errored(StringOr(data.error, "Analysis failed"))]
      else []
    case _ =>
      if hasOnError then [Errored(FailureMessage(reply))] else []
  }

  class Tracker {
    const taskId: string
    const hasOnComplete: bool
    const hasOnError: bool
    var status: Option<TaskStatus>
    var isPolling: bool
    var error: Option<string>
    var callbacks: seq<Callback>

    constructor(taskId: string, hasOnComplete: bool, hasOnError: bool)
      ensures this.taskId == taskId && this.hasOnComplete == hasOnComplete && this.hasOnError == hasOnError
      ensures status == None && !isPolling && error == None && callbacks == []
    {
      this.taskId := taskId;
      this.hasOnComplete := hasOnComplete;
      this.hasOnError := hasOnError;
      status := None;
      isPolling := false;
      error := None;
      callbacks := [];
    }

    /** The synchronous start of `pollStatus`: nothing happens while a poll is in flight. */
    method BeginPoll() returns (started: bool)
      modifies this
      ensures started == !old(isPolling)
      ensures isPolling
      ensures error == (if started then None else old(error))
      ensures status == old(status) && callbacks == old(callbacks)
    {
      if isPolling {
        return false;
      }
      isPolling := true;
      error := None;
      return true;
    }

    /** The rest of `pollStatus` once its fetch has replied; `isPolling` ends false whatever the outcome. */
    method FinishPoll(reply: FetchReply)
      modifies this
      ensures !isPolling
      ensures status == (if reply.Body? then Some(reply.data) else old(status))
      ensures error == (if reply.Body? then old(error) else Some(FailureMessage(reply)))
      ensures callbacks == old(callbacks) + Reaction(reply, hasOnComplete, hasOnError)
    {
      match reply {
        case Body(data) =>
          status := Some(data);
          if data.status == SUCCESS && data.result.Some? && hasOnComplete {
            callbacks := callbacks + [Completed(data.result.value)];
          } else if data.status == FAILED && hasOnError {
            callbacks := callbacks + [Errored(StringOr(data.error, "Analysis failed"))];
          }
        case _ =>
          var message := FailureMessage(reply);
          error := Some(message);
          if hasOnError {
            callbacks := callbacks + [Errored(message)];
          }
      }
      isPolling := false;
    }

    /** One whole `pollStatus`; started while another poll is in flight, it does nothing. */
    method PollStatus(reply: FetchReply)
      modifies this
      ensures old(isPolling) ==>
        isPolling && status == old(status) && error == old(error) && callbacks == old(callbacks)
      ensures !old(isPolling) ==>
        && !isPolling
        && status == (if reply.Body? then Some(reply.data) else old(status))
        && error == (if reply.Body? then None else Some(FailureMessage(reply)))
        && callbacks == old(callbacks) + Reaction(reply, hasOnComplete, hasOnError)
    {
      var started := BeginPoll();
      if started {
        FinishPoll(reply);
      }
    }
  }

  // ---------------------------------------------------------------------------
  // The polling effect

  /** Whether an interval tick polls: it stops once the status it sees is terminal. */
  function TickPolls(status: Option<TaskStatus>): (polls: bool)
    ensures !polls <==> status.Some? && (status.value.status == SUCCESS || status.value.status == FAILED)
  {
    !(status.Some? && (status.value.status == SUCCESS || status.value.status == FAILED))
  }

  /** The effect's dependencies: it re-runs whenever one of them changes. */
  datatype EffectDeps = EffectDeps(taskId: string, autoPoll: bool, pollInterval: int, status: Option<string>)

  function StatusDep(status: Option<TaskStatus>): Option<string> {
    if status.Some? then Some(status.value.status) else None
  }

  /** Number of polls the effect starts at once when it (re-)runs after `before` became `after`. */
  function ImmediatePolls(before: EffectDeps, after: EffectDeps): (n: nat)
    ensures n <= 1
    ensures n == 1 <==> before != after && after.autoPoll && after.taskId != ""
  {
    if before != after && after.autoPoll && after.taskId != "" then 1 else 0
  }

  /**
   * When a polled status turns terminal the interval stops polling, yet the status change
   * re-runs the effect, which polls once more at once.
   */
  lemma TerminalStatusPollsOnceMore(deps: EffectDeps, previous: Option<TaskStatus>, final: TaskStatus)
    requires deps.autoPoll && deps.taskId != ""
    requires deps.status == StatusDep(previous) && TickPolls(previous)
    requires final.status == SUCCESS || final.status == FAILED
    ensures !TickPolls(Some(final))
    ensures ImmediatePolls(deps, deps.(status := StatusDep(Some(final)))) == 1
  {
  }

  // ---------------------------------------------------------------------------
  // Badge label and colour

  function StatusLabel(status: string): (lbl: string)
    ensures lbl == "Unknown" <==> status !in {SUCCESS, PROCESSING, PENDING, FAILED}
    ensures status == SUCCESS ==> lbl == "Completed"
    ensures status == PROCESSING ==> lbl == "Processing"
    ensures status == PENDING ==> lbl == "Pending"
    ensures status == FAILED ==> lbl == "Failed"
  {
    if status == SUCCESS then "Completed"
    else if status == PROCESSING then "Processing"
    else if status == PENDING then "Pending"
    else if status == FAILED then "Failed"
    else "Unknown"
  }

  function StatusColor(status: string): (color: string)
    ensures color == "bg-gray-100 text-gray-800" <==> status !in {SUCCESS, PROCESSING, PENDING, FAILED}
  {
    if status == SUCCESS then "bg-green-100 text-green-800"
    else if status == PROCESSING then "bg-blue-100 text-blue-800"
    else if status == PENDING then "bg-yellow-100 text-yellow-800"
    else if status == FAILED then "bg-red-100 text-red-800"
    else "bg-gray-100 text-gray-800"
  }

  /** The colour a status label is shown in. */
  function LabelColor(lbl: string): string {
    if lbl == "Completed" then "bg-green-100 text-green-800"
    else if lbl == "Processing" then "bg-blue-100 text-blue-800"
    else if lbl == "Pending" then "bg-yellow-100 text-yellow-800"
    else if lbl == "Failed" then "bg-red-100 text-red-800"
    else "bg-gray-100 text-gray-800"
  }

  /** Colour and label agree for every status: distinct labels get distinct colours. */
  lemma ColorFollowsLabel(status: string)
    ensures StatusColor(status) == LabelColor(StatusLabel(status))
  {
  }
}
