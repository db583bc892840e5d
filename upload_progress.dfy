/**
 * The upload-progress modal: it runs the analysis workflow for one file, mirrors each
 * progress report in its state, and derives the status of its five steps from the
 * progress number.
 */
module UploadProgress {
  import opened Wrappers
  import opened TaskTypes
  import TaskApi

  datatype StepStatus = Pending | Processing | Completed | Failed

  const STEP_COUNT: nat := 5

  /**
   * The step update as the effect writes it: with an error, processing steps fail;
   * otherwise each band of 20 progress points completes the steps before its own step and
   * marks that one processing; 100 with completion completes every step.
   */
  function NextSteps(steps: seq<StepStatus>, progress: int, isComplete: bool, hasError: bool): (r: seq<StepStatus>)
    requires |steps| == STEP_COUNT
    ensures |r| == STEP_COUNT
  {
    if hasError then FailProcessing(steps)
    else if 0 <= progress < 20 then steps[0 := Processing]
    else if 20 <= progress < 40 then steps[0 := Completed][1 := Processing]
    else if 40 <= progress < 60 then steps[0 := Completed][1 := Completed][2 := Processing]
    else if 60 <= progress < 80 then steps[0 := Completed][1 := Completed][2 := Completed][3 := Processing]
    else if 80 <= progress < 100 then
      steps[0 := Completed][1 := Completed][2 := Completed][3 := Completed][4 := Processing]
    else if progress == 100 && isComplete then [Completed, Completed, Completed, Completed, Completed]
    else steps
  }

  function FailProcessing(steps: seq<StepStatus>): (r: seq<StepStatus>)
    ensures |r| == |steps|
    ensures forall i | 0 <= i < |steps| :: r[i] == (if steps[i] == Processing then Failed else steps[i])
  {
    if steps == [] then []
    else [if steps[0] == Processing then Failed else steps[0]] + FailProcessing(steps[1..])
  }

  /**
   * For progress in [20k, 20k + 20), k < 5: steps before k are completed, step k is
   * processing and later steps keep their status.
   */
  lemma StepBands(steps: seq<StepStatus>, progress: int, isComplete: bool)
    requires |steps| == STEP_COUNT && 0 <= progress < 100
    ensures var k := progress / 20; var r := NextSteps(steps, progress, isComplete, false);
      forall i | 0 <= i < STEP_COUNT ::
        r[i] == (if i < k then Completed else if i == k then Processing else steps[i])
  {
  }

  /** Progress 100 completes every step only together with completion; any other progress outside [0, 100) changes nothing. */
  lemma StepsAtTheEnds(steps: seq<StepStatus>, progress: int, isComplete: bool)
    requires |steps| == STEP_COUNT && !(0 <= progress < 100)
    ensures progress == 100 && isComplete ==>
      forall i | 0 <= i < STEP_COUNT :: NextSteps(steps, progress, isComplete, false)[i] == Completed
    ensures !(progress == 100 && isComplete) ==> NextSteps(steps, progress, isComplete, false) == steps
  {
  }

  /** No update ever sets a step back to pending. */
  lemma NeverBackToPending(steps: seq<StepStatus>, progress: int, isComplete: bool, hasError: bool)
    requires |steps| == STEP_COUNT
    ensures forall i | 0 <= i < STEP_COUNT && steps[i] != Pending ::
      NextSteps(steps, progress, isComplete, hasError)[i] != Pending
  {
  }

  /** After a progress regression two steps can be processing at once. */
  lemma RegressionLeavesTwoProcessing()
    ensures var first := NextSteps([Pending, Pending, Pending, Pending, Pending], 50, false, false);
      var second := NextSteps(first, 10, false, false);
      second[0] == Processing && second[2] == Processing
  {
  }

  class Modal {
    var progress: int
    var status: string
    var isComplete: bool
    var hasError: bool
    var errorMessage: string
    var workflowResult: Option<AnalysisResult>
    var errorsReported: seq<string>
    const steps: array<StepStatus>

    predicate Valid()
      reads this
    {
      steps.Length == STEP_COUNT
    }

    constructor()
      ensures Valid() && fresh(steps)
      ensures progress == 0 && status == "Starting analysis..." && !isComplete && !hasError
      ensures errorMessage == "" && workflowResult == None && errorsReported == []
      ensures steps[..] == [Pending, Pending, Pending, Pending, Pending]
    {
      progress := 0;
      status := "Starting analysis...";
      isComplete := false;
      hasError := false;
      errorMessage := "";
      workflowResult := None;
      errorsReported := [];
      steps := new StepStatus[STEP_COUNT](_ => Pending);
    }

    /** The step effect, run after `progress`, `isComplete` or `hasError` changed. */
    method UpdateSteps()
      requires Valid()
      modifies steps
      ensures steps[..] == NextSteps(old(steps[..]), progress, isComplete, hasError)
    {
      if hasError {
        for i := 0 to STEP_COUNT
          invariant steps[..i] == FailProcessing(old(steps[..]))[..i]
          invariant forall j | i <= j < STEP_COUNT :: steps[j] == old(steps[j])
        {
          if steps[i] == Processing {
            steps[i] := Failed;
          }
        }
        return;
      }
      if 0 <= progress < 20 {
        steps[0] := Processing;
      } else if 20 <= progress < 40 {
        steps[0] := Completed;
        steps[1] := Processing;
      } else if 40 <= progress < 60 {
        steps[0] := Completed;
        steps[1] := Completed;
        steps[2] := Processing;
      } else if 60 <= progress < 80 {
        steps[0] := Completed;
        steps[1] := Completed;
        steps[2] := Completed;
        steps[3] := Processing;
      } else if 80 <= progress < 100 {
        steps[0] := Completed;
        steps[1] := Completed;
        steps[2] := Completed;
        steps[3] := Completed;
        steps[4] := Processing;
      } else if progress == 100 && isComplete {
        for i := 0 to STEP_COUNT
          invariant forall j | 0 <= j < i :: steps[j] == Completed
        {
          steps[i] := Completed;
        }
      }
    }

    /** The progress callback: mirror one report, then let the step effect run. */
    method ApplyReport(report: TaskApi.ProgressReport)
      requires Valid()
      modifies this, steps
      ensures progress == NumberOr(Some(report.progress), 0)
      ensures status == StringOr(Some(report.status), "Processing...")
      ensures isComplete == old(isComplete) && hasError == old(hasError) && errorMessage == old(errorMessage)
      ensures workflowResult == old(workflowResult) && errorsReported == old(errorsReported)
      ensures steps[..] == NextSteps(old(steps[..]), progress, isComplete, hasError)
    {
      progress := NumberOr(Some(report.progress), 0);
      status := StringOr(Some(report.status), "Processing...");
      UpdateSteps();
    }

    /**
     * `startAnalysis`: without a file, fail at once without running the workflow;
     * otherwise mirror every progress report of the workflow run (`outcome` and `reports`,
     * as `TaskApi.AnalyzeFile` produces them) and record its outcome.
     */
    method StartAnalysis(hasFile: bool, outcome: TaskApi.AnalyzeOutcome, reports: seq<TaskApi.ProgressReport>)
      requires Valid()
      modifies this, steps
      ensures !hasFile ==>
        hasError && errorMessage == "No file provided for analysis." && status == errorMessage
        && progress == 0 && isComplete == old(isComplete) && errorsReported == old(errorsReported)
      ensures hasError ==> forall i | 0 <= i < STEP_COUNT :: steps[i] != Processing
      ensures hasFile && !old(hasError) && !old(isComplete) ==> isComplete != hasError
      ensures hasFile && isComplete && !old(isComplete) && !hasError ==>
        workflowResult.Some? && progress == 100 && status == "Analysis complete!"
        && forall i | 0 <= i < STEP_COUNT :: steps[i] == Completed
      ensures hasFile && hasError && !old(hasError) ==>
        progress == 0 && status == errorMessage && errorsReported == old(errorsReported) + [errorMessage]
      ensures hasFile && outcome.Analysed? ==>
        isComplete && workflowResult == Some(outcome.result) && progress == 100 && status == "Analysis complete!"
        && hasError == old(hasError) && errorMessage == old(errorMessage) && errorsReported == old(errorsReported)
      ensures hasFile && outcome.Failed? ==>
        hasError && errorMessage == outcome.message && status == outcome.message && progress == 0
        && errorsReported == old(errorsReported) + [outcome.message]
        && isComplete == old(isComplete) && workflowResult == old(workflowResult)
    {
      if !hasFile {
        hasError := true;
        errorMessage := "No file provided for analysis.";
        status := "No file provided for analysis.";
        progress := 0;
        UpdateSteps();
        return;
      }
      for i := 0 to |reports|
        invariant isComplete == old(isComplete) && hasError == old(hasError)
        invariant workflowResult == old(workflowResult) && errorsReported == old(errorsReported)
        invariant errorMessage == old(errorMessage)
      {
        ApplyReport(reports[i]);
      }
      match outcome {
        case Analysed(result) =>
          workflowResult := Some(result);
          isComplete := true;
          progress := 100;
          status := "Analysis complete!";
        case Failed(message) =>
          hasError := true;
          errorMessage := message;
          progress := 0;
          status := message;
          errorsReported := errorsReported + [message];
      }
      UpdateSteps();
    }
  }
}
