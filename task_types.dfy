/**
 * The task-status record that the backend's status endpoint returns and that the
 * frontend's pollers consume. The status is kept as a string so that both spellings in
 * use fit: the frontend expects PROCESSING/FAILED, the backend sends PROGRESS/FAILURE.
 */
module TaskTypes {
  import opened Wrappers

  const PENDING: string := "PENDING"
  const PROCESSING: string := "PROCESSING"
  const SUCCESS: string := "SUCCESS"
  const FAILED: string := "FAILED"
  const PROGRESS: string := "PROGRESS"
  const FAILURE: string := "FAILURE"

  /** An analysis result, kept opaque: only its identity matters to the status logic. */
  datatype AnalysisResult = AnalysisResult(id: nat)

  datatype TaskStatus = TaskStatus(
    taskId: string,
    status: string,
    progress: Option<int>,
    currentStatus: Option<string>,
    result: Option<AnalysisResult>,
    error: Option<string>)
}
