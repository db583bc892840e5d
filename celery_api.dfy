/**
 * The backend's task endpoints: file submission, the mapping of a Celery task state to
 * the status record the frontend polls, and the result endpoint.
 *
 * A Celery task is given by its state, its `info` and its `result`. Every `HTTPException`
 * raised inside a handler's `try` is caught by its `except Exception` and re-raised as a
 * 500 whose detail embeds `str(e)`, which for an HTTP exception reads "<code>: <detail>".
 */
module CeleryApi {
  import opened Wrappers
  import opened TaskTypes
  import opened Text

  /**
   * A task's `info`: nothing, the meta dictionary a running task reports (its optional
   * `progress` and `status` entries), or the exception a failed task raised. Each carries
   * its `str()` rendering.
   */
  datatype TaskInfo =
    | NoInfo
    | Meta(progress: Option<int>, status: Option<string>, text: string)
    | Raised(typeName: string, text: string)

  datatype CeleryTask = CeleryTask(state: string, info: TaskInfo, result: Option<AnalysisResult>)

  /** Python's `str(info)`. */
  function InfoText(info: TaskInfo): string {
    match info
    case NoInfo => "None"
    case Meta(_, _, text) => text
    case Raised(_, text) => text
  }

  /** Python's `str(e)` for a FastAPI `HTTPException` with status code "<code>". */
  function HttpExceptionText(code: string, detail: string): string {
    code + ": " + detail
  }

  // ---------------------------------------------------------------------------
  // POST /submit-analysis

  datatype SubmitReply =
    | Submitted(taskId: string, message: string, status: string)
    | SubmitError(code: int, detail: string)

  const MSG_ONLY: string := "Only .msg files are supported"

  /**
   * `submit_analysis`: accept a file whose name ends in '.msg' (case-sensitive) and enqueue
   * it; `enqueued` is the task id Celery assigns or the error raised while saving or
   * enqueueing. The 400 for a wrong name is raised inside the `try`, so it reaches the
   * client as a 500.
   */
  function SubmitAnalysis(filename: Option<string>, enqueued: Result<string>): (reply: SubmitReply)
    ensures reply.Submitted? <==>
      filename.Some? && filename.value != "" && EndsWith(filename.value, ".msg") && enqueued.Success?
    ensures reply.Submitted? ==>
      reply.taskId == enqueued.value && reply.status == "submitted"
      && reply.message == "Analysis started for " + filename.value
    ensures reply.SubmitError? ==> reply.code == 500
    ensures (filename.None? || !EndsWith(filename.value, ".msg")) ==>
      reply == SubmitError(500, "Error submitting analysis: " + HttpExceptionText("400", MSG_ONLY))
  {
    if filename.None? || filename.value == "" || !EndsWith(filename.value, ".msg") then
      SubmitError(500, "Error submitting analysis: " + HttpExceptionText("400", MSG_ONLY))
    else
      match enqueued
      case Failure(e) => SubmitError(500, "Error submitting analysis: " + e)
      case Success(id) => Submitted(id, "Analysis started for " + filename.value, "submitted")
  }

  // ---------------------------------------------------------------------------
  // GET /task-status/{task_id}

  datatype StatusReply = StatusOk(record: TaskStatus) | StatusError(code: int, detail: string)

  /** Python's `AttributeError` text for calling `.get` on something that is not a dict. */
  function NoGetText(info: TaskInfo): string {
    var typeName := match info
      case NoInfo => "NoneType"
      case Meta(_, _, _) => "dict"
      case Raised(t, _) => t;
    "'" + typeName + "' object has no attribute 'get'"
  }

  /** `get_task_status`: the status record for a task. */
  function GetTaskStatus(taskId: string, task: CeleryTask): (reply: StatusReply)
    ensures reply.StatusError? ==> reply.code == 500 && task.state == PROGRESS && !task.info.Meta?
    ensures reply.StatusOk? ==>
      var r := reply.record;
      && r.taskId == taskId && r.status == task.state
      && (r.progress.Some? <==> task.state in {PROGRESS, SUCCESS})
      && (r.result.Some? ==> task.state == SUCCESS && r.result == task.result)
      && (r.error.Some? <==> task.state == FAILURE)
      && r.currentStatus.Some?
    ensures task.state == PENDING ==>
      reply == StatusOk(TaskStatus(taskId, PENDING, None, Some("Task is waiting to be processed"), None, None))
    ensures task.state == PROGRESS && task.info.Meta? ==>
      reply == StatusOk(TaskStatus(taskId, PROGRESS, Some(task.info.progress.GetOr(0)),
                                   Some(task.info.status.GetOr("Processing...")), None, None))
    ensures task.state == SUCCESS ==>
      reply == StatusOk(TaskStatus(taskId, SUCCESS, Some(100), Some("Analysis completed"), task.result, None))
    ensures task.state == FAILURE ==>
      reply == StatusOk(TaskStatus(taskId, FAILURE, None, Some("Analysis failed"), None, Some(InfoText(task.info))))
    ensures task.state !in {PENDING, PROGRESS, SUCCESS, FAILURE} ==>
      reply == StatusOk(TaskStatus(taskId, task.state, None, Some("Unknown state: " + task.state), None, None))
  {
    if task.state == PENDING then
      StatusOk(TaskStatus(taskId, PENDING, None, Some("Task is waiting to be processed"), None, None))
    else if task.state == PROGRESS then
      match task.info
      case Meta(progress, status, _) =>
        StatusOk(TaskStatus(taskId, PROGRESS, Some(progress.GetOr(0)), Some(status.GetOr("Processing...")), None, None))
      case _ =>
        StatusError(500, "Error getting task status: " + NoGetText(task.info))
    else if task.state == SUCCESS then
      StatusOk(TaskStatus(taskId, SUCCESS, Some(100), Some("Analysis completed"), task.result, None))
    else if task.state == FAILURE then
      StatusOk(TaskStatus(taskId, FAILURE, None, Some("Analysis failed"), None, Some(InfoText(task.info))))
    else
      StatusOk(TaskStatus(taskId, task.state, None, Some("Unknown state: " + task.state), None, None))
  }

  // ---------------------------------------------------------------------------
  // GET /task-result/{task_id}

  datatype ResultReply = ResultOk(content: Option<AnalysisResult>) | ResultError(code: int, detail: string)

  /**
   * `get_task_result`: the result of a finished task. The 400 (failed task) and 202 (not
   * yet finished) it raises are caught and re-raised as 500s.
   */
  function GetTaskResult(task: CeleryTask): (reply: ResultReply)
    ensures reply.ResultOk? <==> task.state == SUCCESS
    ensures reply.ResultOk? ==> reply.content == task.result
    ensures reply.ResultError? ==> reply.code == 500
    ensures task.state == FAILURE ==>
      reply.detail == "Error getting task result: " + HttpExceptionText("400", "Task failed: " + InfoText(task.info))
    ensures task.state !in {SUCCESS, FAILURE} ==>
      reply.detail == "Error getting task result: " + HttpExceptionText("202", "Task not completed. Status: " + task.state)
  {
    if task.state == SUCCESS then ResultOk(task.result)
    else if task.state == FAILURE then
      ResultError(500, "Error getting task result: " + HttpExceptionText("400", "Task failed: " + InfoText(task.info)))
    else
      ResultError(500, "Error getting task result: " + HttpExceptionText("202", "Task not completed. Status: " + task.state))
  }

  /** A status reply never claims a result the result endpoint would not also give. */
  lemma StatusAndResultAgree(taskId: string, task: CeleryTask)
    requires GetTaskStatus(taskId, task).StatusOk?
    requires GetTaskStatus(taskId, task).record.result.Some?
    ensures GetTaskResult(task) == ResultOk(GetTaskStatus(taskId, task).record.result)
  {
  }
}
