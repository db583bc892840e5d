/**
 * How the frontend and the backend meet: the status words the Celery endpoint sends
 * against the ones the pollers and badges expect, and the file names the drop zone lets
 * through against the ones the submit endpoint takes.
 */
module StatusSpelling {
  import opened Wrappers
  import opened Text
  import opened TaskTypes
  import TaskApi
  import CeleryApi
  import StatusTracker
  import UploadZone

  /**
   * A task that is running or has failed is reported as PROGRESS or FAILURE, neither of
   * which the frontend poller treats as final.
   */
  lemma BackendStatesNotTerminal(taskId: string, task: CeleryApi.CeleryTask)
    requires task.state == PROGRESS || task.state == FAILURE
    ensures var reply := CeleryApi.GetTaskStatus(taskId, task);
      reply.StatusOk? ==> !TaskApi.IsTerminal(reply.record)
  {
  }

  /** The poller's view of a task whose every status request returns the same reply. */
  function Replies(reply: CeleryApi.StatusReply, n: nat): (source: seq<TaskApi.Response>)
    ensures |source| == n
    ensures forall k | 0 <= k < n :: source[k] == (if reply.StatusOk? then TaskApi.Reply(reply.record) else TaskApi.RequestError)
  {
    if n == 0 then []
    else Replies(reply, n - 1) + [if reply.StatusOk? then TaskApi.Reply(reply.record) else TaskApi.RequestError]
  }

  /**
   * A failed analysis never ends the frontend's polling: it runs through every attempt
   * and then reports 'Task polling timeout' instead of the failure.
   */
  lemma FailedTaskTimesOut(taskId: string, task: CeleryApi.CeleryTask, n: nat, maxAttempts: int)
    requires task.state == FAILURE
    ensures var run := TaskApi.Poll(Replies(CeleryApi.GetTaskStatus(taskId, task), n), maxAttempts);
      run.outcome.TimedOut? && run.requests == (if maxAttempts > 0 then maxAttempts else 0)
  {
    var source := Replies(CeleryApi.GetTaskStatus(taskId, task), n);
    BackendStatesNotTerminal(taskId, task);
    TaskApi.PollStopsAtFirstTerminal(source, maxAttempts);
    assert forall k: nat :: !TaskApi.TerminalAt(source, k);
  }

  /** The status badge has no label for the backend's PROGRESS and FAILURE. */
  lemma BackendStatesLabelledUnknown()
    ensures StatusTracker.StatusLabel(PROGRESS) == "Unknown"
    ensures StatusTracker.StatusLabel(FAILURE) == "Unknown"
  {
  }

  /**
   * The drop zone accepts a message file named in upper case, but the submit endpoint
   * compares the suffix with case and refuses it.
   */
  lemma UpperCaseMsgRefusedOnSubmit(f: UploadZone.FileInfo, enqueued: Result<string>)
    requires f == UploadZone.FileInfo("MAIL.MSG", "application/octet-stream", 1)
    ensures UploadZone.Acceptable(f, UploadZone.DEFAULT_CONFIG)
    ensures CeleryApi.SubmitAnalysis(Some(f.name), enqueued).SubmitError?
  {
    UploadZone.UpperCaseMsgAccepted(f);
    UploadZone.UpperCaseNameLacksSuffix(f.name);
  }
}
