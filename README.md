# Reinsurance dashboard core, modelled in Dafny

This project models the logic of a reinsurance submissions dashboard. The dashboard has a
Next.js/TypeScript frontend and a FastAPI/Celery Python backend. The model covers five parts:

- **Analysis-task polling.** The frontend's bounded polling loop (`pollTaskStatus`,
  `analyzeFile`), the timer-driven status tracker and the five-step upload progress modal.
  On the backend side, the Celery state mapping (`get_task_status`, `get_task_result`,
  `submit_analysis`). The status word is a plain string, so both the frontend spellings
  (`PROCESSING`, `FAILED`) and the backend spellings (`PROGRESS`, `FAILURE`) can be written.
  The `StatusSpelling` module proves what the mismatch does.
- **Analysis history.** A capped (100), newest-first store of analysis records, deduplicated
  by task id. This covers the GET/POST route that upserts into it and the dashboard panel
  that shows a prefix of it and names the download file.
- **Client state.** The submission and auth reducers, the document context, the filter
  editors and the table selection logic.
- **Upload validation and counters.** The drop zone's `validateFiles`, `getFileTypeLabel`,
  the `formatFileSize` unit choice and the submission preview counters.
- **Data shaping.** Submission statistics, the Prisma-row serialiser, the submissions API
  transform and its id/limit branching. On the backend: the `.msg` reader's sanitisers,
  attachment records and summary, document-processing aggregation, and the recursive JSON
  serialiser.

**Form of the model.** Code that changes state step by step is a class with `modifies`
clauses, or a method with a loop and its invariants. Each method is proved against a
specification function. The loops are `pollTaskStatus`, `validateFiles`, the two
sanitisers, `process_documents`, `extract_key_information` and the filtered/sorted
submissions pipeline. The classes are the history file, the history panel, the status
tracker, the upload modal, the document context and the `.msg` reader. Pure code is
functions and lemmas.

**What is a parameter.** The outside world is passed in as parameters:

- the sequence of status replies;
- the outcome of a submit, fetch or parse;
- whether file I/O fails;
- the database result;
- the current time;
- the `json.dumps` acceptance test.

Modules: `Wrappers`, `Seqs` and `Text` are shared helpers. Every other module corresponds to
one source file, except `StatusSpelling`, which relates the frontend and the backend.

## Model

| member | source | states |
|---|---|---|
| Wrappers.StringOr | Frontend/lib/api.ts:228-235 | JavaScript `s \|\| fallback` on an optional string: '' and missing both fall back |
| Wrappers.NumberOr | Frontend/lib/api.ts:229 | JavaScript `n \|\| fallback`: 0 and missing both fall back |
| Seqs.SliceTo | Frontend/components/dashboard/AnalysisHistoryPanel.tsx:51 | JavaScript `slice(0, n)`: a prefix of min(n, length) elements; a negative n drops the last -n elements |
| Seqs.RemoveAll | Frontend/contexts/SubmissionContext.tsx:115 | `filter(x => x !== id)` removes every occurrence, keeps the rest in order and changes nothing when absent |
| Seqs.ToggleTwice | Frontend/contexts/SubmissionContext.tsx:111-117 | toggling keeps a selection duplicate-free, and toggling twice restores it (as a multiset when the id was present) |
| Text.Strip | Backend/services/msg_reader_service.py:177-183 | stripping never lengthens, leaves no stripped character at either end and adds no character |
| TaskApi.PollTaskStatus | Frontend/lib/api.ts:175-210 | the loop's outcome, progress callbacks and request count equal the `Poll` specification over the reply sequence |
| TaskApi.PollFromFacts | Frontend/lib/api.ts:181-209 | from any attempt count, the run's updates are exactly the replies received, requests stay within the budget, and a finish happens only on a terminal reply |
| TaskApi.PollBounded | Frontend/lib/api.ts:181-209 | at most `max(0, maxAttempts)` requests; with `maxAttempts <= 0` it times out with no request and no callback; the callbacks are the successful replies in order |
| TaskApi.PollStopsAtFirstTerminal | Frontend/lib/api.ts:183-209 | the run finishes iff some reply within the budget is SUCCESS or FAILED, and then returns the first such reply; otherwise it times out after exactly `max(0, maxAttempts)` requests, request errors included |
| TaskApi.PollTerminalLast | Frontend/lib/api.ts:187-193 | when the run finishes, the last status passed to the callback is the returned terminal status, so nothing is reported after it |
| TaskApi.RepliesBefore | Frontend/lib/api.ts:185-189 | the callbacks of the first n requests are at most n and skip request errors |
| TaskApi.PollReport | Frontend/lib/api.ts:226-230 | each poll reports `current_status` or 'Processing...', and a progress that is never 0 (absent or 0 becomes 10) |
| TaskApi.PollReports | Frontend/lib/api.ts:224-232 | one progress report per status update, in order |
| TaskApi.AnalyzeFile | Frontend/lib/api.ts:213-254 | reports start with 0 and 10; a submit failure stops after the first report; FAILED fails with the error or 'Analysis failed'; SUCCESS with a result ends on 100; otherwise it reports 90, fetches, then 100; the timeout propagates |
| TaskApi.RiskScoreLabel | Frontend/lib/api.ts:285-290 | total threshold map: each label holds exactly on its band (>=0.8, >=0.6, >=0.4, below) |
| TaskApi.RiskScoreColor | Frontend/lib/api.ts:278-283 | the colour is one of the four risk colours |
| TaskApi.RiskHelpersAgree | Frontend/lib/api.ts:278-290 | the colour helper picks the colour of the label helper's band, and the label is monotone in the score |
| TaskApi.ConfidenceLabel | Frontend/lib/api.ts:298-302 | each confidence label holds exactly on its band (>=0.8, >=0.6, below) |
| TaskApi.ConfidenceColor | Frontend/lib/api.ts:292-296 | the colour is one of the three confidence colours |
| TaskApi.ConfidenceHelpersAgree | Frontend/lib/api.ts:292-302 | the colour helper agrees with the label helper, and the label is monotone |
| CeleryApi.SubmitAnalysis | Backend/main_celery.py:51-84 | a task id is returned iff the name ends with '.msg' (case-sensitive) and enqueueing succeeds; every error, including the 400 for a wrong suffix, reaches the client as 500 |
| CeleryApi.GetTaskStatus | Backend/main_celery.py:86-133 | PENDING, PROGRESS, SUCCESS and FAILURE map to their records (progress defaults, 100 with the result, `error = str(info)`); any other state passes through with 'Unknown state: X'; a PROGRESS task without metadata fails with 500 |
| CeleryApi.GetTaskResult | Backend/main_celery.py:135-152 | the result is returned iff the state is SUCCESS; FAILURE and not-ready states become 500 errors |
| CeleryApi.StatusAndResultAgree | Backend/main_celery.py:107-114 | for a successful task the result endpoint returns the result the status endpoint attached |
| StatusTracker.Reaction | Frontend/components/analysis/TaskStatusTracker.tsx:92-109 | at most one callback: onComplete with the result on SUCCESS with a result, onError with the error or 'Analysis failed' on FAILED, onError with the message on a failed request |
| StatusTracker.Tracker.constructor | Frontend/components/analysis/TaskStatusTracker.tsx:35-37 | no status, not polling, no error |
| StatusTracker.Tracker.BeginPoll | Frontend/components/analysis/TaskStatusTracker.tsx:84-88 | a poll starts only when none is running; a started poll clears the error |
| StatusTracker.Tracker.FinishPoll | Frontend/components/analysis/TaskStatusTracker.tsx:89-112 | polling is off afterwards; a body replaces the status, a failure stores its message; callbacks grow by the reaction |
| StatusTracker.Tracker.PollStatus | Frontend/components/analysis/TaskStatusTracker.tsx:84-113 | does nothing while a poll is running; otherwise it behaves as begin then finish |
| StatusTracker.TickPolls | Frontend/components/analysis/TaskStatusTracker.tsx:119-123 | the interval polls iff the status is not SUCCESS or FAILED |
| StatusTracker.ImmediatePolls | Frontend/components/analysis/TaskStatusTracker.tsx:115-129 | the effect polls once immediately iff its dependencies changed, auto-polling is on and there is a task id |
| StatusTracker.TerminalStatusPollsOnceMore | Frontend/components/analysis/TaskStatusTracker.tsx:115-129 | reaching a terminal status stops the interval but re-runs the effect, which fetches once more |
| StatusTracker.StatusLabel | Frontend/components/analysis/TaskStatusTracker.tsx:69-82 | the four frontend spellings get their labels; 'Unknown' iff the status is none of them |
| StatusTracker.StatusColor | Frontend/components/analysis/TaskStatusTracker.tsx:54-67 | the gray default iff the status is none of the four |
| StatusTracker.ColorFollowsLabel | Frontend/components/analysis/TaskStatusTracker.tsx:54-82 | the colour map and the label map make the same case split |
| UploadProgress.NextSteps | Frontend/components/submissions/UploadProgressModal.tsx:128-166 | the step effect keeps five steps |
| UploadProgress.FailProcessing | Frontend/components/submissions/UploadProgressModal.tsx:133-138 | with an error, exactly the 'processing' steps become 'failed' |
| UploadProgress.StepBands | Frontend/components/submissions/UploadProgressModal.tsx:140-159 | for progress in [20k, 20k+20): steps before k completed, step k processing, later steps untouched |
| UploadProgress.StepsAtTheEnds | Frontend/components/submissions/UploadProgressModal.tsx:160-164 | 100 with completion makes every step completed; any other out-of-band progress leaves the steps unchanged |
| UploadProgress.NeverBackToPending | Frontend/components/submissions/UploadProgressModal.tsx:128-166 | no step that has left 'pending' returns to it |
| UploadProgress.RegressionLeavesTwoProcessing | Frontend/components/submissions/UploadProgressModal.tsx:140-159 | after a progress regression (50 then 10) two steps are 'processing' at once |
| UploadProgress.Modal.constructor | Frontend/components/submissions/UploadProgressModal.tsx:35-77 | progress 0, 'Starting analysis...', no error, five pending steps |
| UploadProgress.Modal.UpdateSteps | Frontend/components/submissions/UploadProgressModal.tsx:128-166 | the step array, changed in place, equals `NextSteps` of its old contents |
| UploadProgress.Modal.ApplyReport | Frontend/components/submissions/UploadProgressModal.tsx:108-111 | progress becomes the report's progress or 0, the status its text or 'Processing...', and the steps follow |
| UploadProgress.Modal.StartAnalysis | Frontend/components/submissions/UploadProgressModal.tsx:98-126 | no file: error 'No file provided for analysis.' and progress 0; an analysed outcome completes the run with its result stored, progress 100 and 'Analysis complete!'; a failed outcome sets the error to its message, progress 0, and reports the message once through onError; after an error no step is processing |
| HistoryStore.Insert | Frontend/app/api/analysis-history/utils.ts:35 | inserting keeps every record (multiset plus one) |
| HistoryStore.InsertSorted | Frontend/app/api/analysis-history/utils.ts:35 | inserting into a newest-first list keeps it newest-first |
| HistoryStore.SortNewestFirst | Frontend/app/api/analysis-history/utils.ts:35 | the stable sort is a permutation ordered by `completedAt`, newest first |
| HistoryStore.SortKeepsSorted | Frontend/app/api/analysis-history/utils.ts:35 | sorting an already newest-first list changes nothing (stability) |
| HistoryStore.InsertCount | Frontend/app/api/analysis-history/utils.ts:35 | inserting preserves how many records satisfy any test |
| HistoryStore.SortCount | Frontend/app/api/analysis-history/utils.ts:35 | sorting preserves how many records satisfy any test |
| HistoryStore.Take | Frontend/app/api/analysis-history/utils.ts:36 | `slice(0, n)`: the first min(n, length) records |
| HistoryStore.Sanitize | Frontend/app/api/analysis-history/utils.ts:32-36 | at most 100 records, all with a task id, newest first, a sub-multiset of the input |
| HistoryStore.PrefixSubMultiset | Frontend/app/api/analysis-history/utils.ts:36 | a prefix invents no record |
| HistoryStore.NoDroppedRecordIsNewer | Frontend/app/api/analysis-history/utils.ts:6-36 | a dropped record with a task id means the store is full and every kept record is at least as new |
| HistoryStore.SanitizeKeepsAllWhenFew | Frontend/app/api/analysis-history/utils.ts:33-36 | with at most 100 records that have a task id, exactly those are kept |
| HistoryStore.SanitizeIdempotent | Frontend/app/api/analysis-history/utils.ts:33-39 | writing back what is stored stores the same list |
| HistoryStore.NewerCountBelowPosition | Frontend/app/api/analysis-history/utils.ts:35 | in a newest-first list, fewer than i+1 records are strictly newer than the one at position i |
| HistoryStore.EvictsWhenHundredNewer | Frontend/app/api/analysis-history/utils.ts:35-36 | if 100 kept-able records are newer than t, nothing at or before t survives |
| HistoryStore.CountMonotone | Frontend/app/api/analysis-history/utils.ts:35-36 | a weaker test counts at least as many records |
| HistoryStore.Parsed | Frontend/app/api/analysis-history/utils.ts:22-29 | unparsable or non-array content reads as [] |
| HistoryStore.Ensured | Frontend/app/api/analysis-history/utils.ts:10-17 | an existing file is left alone; a missing one is created as '[]' |
| HistoryStore.Store.constructor | Frontend/app/api/analysis-history/utils.ts:8 | the store holds the given file state |
| HistoryStore.HistoryRead | Frontend/app/api/analysis-history/utils.ts:22-29 | a throwing `readFile` reads as []; otherwise the parsed records of the stored content, [] for a missing file |
| HistoryStore.Store.EnsureHistoryFile | Frontend/app/api/analysis-history/utils.ts:10-17 | throws exactly when the file is missing and cannot be created, leaving what the failed creation left; otherwise the file exists and is `Ensured` of the old state |
| HistoryStore.Store.ReadHistory | Frontend/app/api/analysis-history/utils.ts:19-30 | throws only when ensuring the file throws; otherwise the file is ensured and the result is its parsed records, or [] when reading throws |
| HistoryStore.Store.WriteHistory | Frontend/app/api/analysis-history/utils.ts:32-40 | succeeds iff neither the creation nor the write throws, and then the file holds exactly `Sanitize(records)`; a failure leaves what the failed call left, not the old file |
| HistoryRoute.Get | Frontend/app/api/analysis-history/route.ts:6-14 | 500 with 'Unable to load analysis history.' exactly when the file is missing and cannot be created; otherwise the stored list, or [] when reading throws |
| HistoryRoute.Tagged | Frontend/app/api/analysis-history/route.ts:26-31 | the stored record is the payload with `persistedBy: 'server'` and nothing else changed |
| HistoryRoute.WithoutTask | Frontend/app/api/analysis-history/route.ts:25 | removes exactly the records with that task id |
| HistoryRoute.Post | Frontend/app/api/analysis-history/route.ts:16-40 | no task id: 400 and the store is untouched; unreadable body: 500; a throwing creation or write: 500 with the file as the failed call left it; otherwise the store holds the upsert onto what was read and the reply echoes the untagged payload |
| HistoryRoute.ReadErrorWipesHistory | Frontend/app/api/analysis-history/utils.ts:26-29 | after a swallowed read error, a POST stores the tagged payload alone and every other record is lost |
| HistoryRoute.UpsertOneRecordPerTask | Frontend/app/api/analysis-history/route.ts:24-33 | after a POST, at most one record has that task id, and it is the tagged payload |
| HistoryRoute.UpsertKeepsOthers | Frontend/app/api/analysis-history/route.ts:25-33 | below the cap, the tagged payload and every record with another task id survive |
| HistoryRoute.UpsertEvictsOldPayload | Frontend/app/api/analysis-history/route.ts:26-33 | a payload older than 100 other records is evicted despite being prepended |
| HistoryPanel.Panel.constructor | Frontend/components/dashboard/AnalysisHistoryPanel.tsx:27-30 | empty history, not loading, no error |
| HistoryPanel.Panel.BeginFetch | Frontend/components/dashboard/AnalysisHistoryPanel.tsx:33-37 | mounted, loading, error cleared, history kept |
| HistoryPanel.Panel.Unmount | Frontend/components/dashboard/AnalysisHistoryPanel.tsx:67-69 | only the mounted flag changes |
| HistoryPanel.Panel.CompleteFetch | Frontend/components/dashboard/AnalysisHistoryPanel.tsx:39-62 | unmounted: nothing changes; otherwise loading ends and a listing shows its first `limit` records, while a failure sets `data.error` or the default message and keeps the history |
| HistoryPanel.ShownIsBoundedPrefix | Frontend/components/dashboard/AnalysisHistoryPanel.tsx:27-51 | the shown records are a prefix of the server's list of at most `limit` records, and all of it when short enough |
| HistoryPanel.SanitizeFileName | Frontend/components/dashboard/AnalysisHistoryPanel.tsx:86 | one-for-one: characters outside [A-Za-z0-9-_.] become '_' |
| HistoryPanel.SanitizeFileNameIdempotent | Frontend/components/dashboard/AnalysisHistoryPanel.tsx:86 | the result has only allowed characters, and sanitising again changes nothing |
| HistoryPanel.DownloadName | Frontend/components/dashboard/AnalysisHistoryPanel.tsx:86-87 | the name ends with '_' + taskId + '.json' and starts with the sanitised file name, or with the task id when there is no file name |
| HistoryPanel.ExportHasExactlySixFields | Frontend/components/dashboard/AnalysisHistoryPanel.tsx:73-80 | the export depends on exactly the six named fields |
| SubmissionContext.ReplaceById | Frontend/contexts/SubmissionContext.tsx:86-88 | same length; exactly the entries with a matching id are replaced |
| SubmissionContext.WithoutId | Frontend/contexts/SubmissionContext.tsx:98 | removes exactly the entries with that id, keeping order |
| SubmissionContext.UpdateReplacesMatching | Frontend/contexts/SubmissionContext.tsx:83-92 | UPDATE_SUBMISSION replaces matching entries, keeps the length, and replaces the current submission only on an id match |
| SubmissionContext.AddPrepends | Frontend/contexts/SubmissionContext.tsx:93-94 | ADD_SUBMISSION prepends the payload |
| SubmissionContext.RemoveDropsId | Frontend/contexts/SubmissionContext.tsx:95-102 | REMOVE_SUBMISSION removes every entry with the id and clears a matching current submission |
| SubmissionContext.ClearFiltersKeepsRest | Frontend/contexts/SubmissionContext.tsx:120-121 | CLEAR_FILTERS empties filters and search and keeps everything else |
| SubmissionContext.LoadingEnds | Frontend/contexts/SubmissionContext.tsx:77-80 | SET_ERROR and SET_SUBMISSIONS turn loading off |
| SubmissionContext.ToggleSelectedEffect | Frontend/contexts/SubmissionContext.tsx:111-117 | toggling appends an absent id or removes every occurrence; toggling an absent id twice restores the state |
| SubmissionContext.SelectionStaysDuplicateFree | Frontend/contexts/SubmissionContext.tsx:111-117 | a duplicate-free selection stays so under every action except SET_SELECTED |
| SubmissionContext.Staged0 | Frontend/contexts/SubmissionContext.tsx:399-400 | the filter pipeline starts from all submissions |
| SubmissionContext.NarrowStep | Frontend/contexts/SubmissionContext.tsx:399-431 | each filter stage leaves the list filtered by all stages so far, as one filter |
| SubmissionContext.DateRangeInclusive | Frontend/contexts/SubmissionContext.tsx:426-431 | the date-range test is inclusive at both ends, and an absent bound does not restrict |
| SubmissionContext.InOrderTotal | Frontend/contexts/SubmissionContext.tsx:434-467 | the comparator orders any two submissions one way or the other |
| SubmissionContext.InOrderTransitive | Frontend/contexts/SubmissionContext.tsx:434-467 | the comparator's order is transitive (priority ranked urgent > high > medium > low) |
| SubmissionContext.InsertInOrder | Frontend/contexts/SubmissionContext.tsx:434-467 | insertion keeps every submission |
| SubmissionContext.InsertInOrderSorted | Frontend/contexts/SubmissionContext.tsx:434-467 | insertion into a sorted list keeps it sorted |
| SubmissionContext.SortSubmissions | Frontend/contexts/SubmissionContext.tsx:434-467 | the sort is a permutation, ordered by the chosen key and direction |
| SubmissionContext.ApplyFilters | Frontend/contexts/SubmissionContext.tsx:398-431 | the stage-by-stage filtering equals one filter of the list by the search and every active filter: each matching submission is kept as often as it occurs, in the list's order |
| SubmissionContext.FilteredAndSorted | Frontend/contexts/SubmissionContext.tsx:398-470 | the result is a permutation of the matching submissions (same multiset, so duplicates are kept) and is sorted by the chosen option |
| AuthContext.ReduceKeepsConsistent | Frontend/contexts/AuthContext.tsx:36-71 | every action keeps `isAuthenticated` equal to "there is a user" |
| AuthContext.RunKeepsConsistent | Frontend/contexts/AuthContext.tsx:36-71 | so does any sequence of actions |
| AuthContext.InitialConsistent | Frontend/contexts/AuthContext.tsx:29-34 | the initial state is consistent, unauthenticated and loading |
| AuthContext.ActionEffects | Frontend/contexts/AuthContext.tsx:38-67 | LOGIN_SUCCESS, LOGIN_FAILURE and LOGOUT set the whole state; CLEAR_ERROR and SET_LOADING change only their field; LOGIN_START keeps the user |
| AuthContext.FindPermission | Frontend/contexts/AuthContext.tsx:144 | `find` returns the first entry for the resource, or none iff there is none |
| AuthContext.HasPermission | Frontend/contexts/AuthContext.tsx:141-146 | false without a user; otherwise true iff the first entry for the resource lists the action |
| AuthContext.FirstForUnique | Frontend/contexts/AuthContext.tsx:144 | the first entry for a resource is unique |
| AuthContext.OnlyFirstEntryCounts | Frontend/contexts/AuthContext.tsx:141-146 | replacing a later entry for the same resource does not change the answer |
| AuthContext.HasRole | Frontend/contexts/AuthContext.tsx:148-150 | true iff there is a user with that role |
| AuthContext.RoleFor | Frontend/contexts/AuthContext.tsx:112-114 | role precedence: 'underwriter', then 'portfolio', then 'manager', else the underwriter default |
| AuthContext.ReplaceFirst | Frontend/contexts/AuthContext.tsx:109 | `replace('.', ' ')` changes only the first '.' |
| AuthContext.CapitalizeAll | Frontend/contexts/AuthContext.tsx:109-111 | each word is capitalised |
| AuthContext.CapitalizeWordsCons | Frontend/contexts/AuthContext.tsx:109-111 | splitting at a space capitalises the first word and recurses on the rest |
| AuthContext.CapitalizeWordsPointwise | Frontend/contexts/AuthContext.tsx:109-111 | exactly the characters that start a word are upper-cased |
| AuthContext.DisplayNameShape | Frontend/contexts/AuthContext.tsx:109-111 | the display name is the local part with its first '.' turned into a space and each word's first letter upper-cased |
| AuthContext.MockUser | Frontend/contexts/AuthContext.tsx:106-123 | the mock user keeps the email and the three fixed permissions |
| AuthContext.MockPermissionsGrant | Frontend/contexts/AuthContext.tsx:118-146 | a user holding the mock permissions may approve submissions and read the portfolio, but not write the portfolio or read documents |
| AuthContext.MockUserPermissions | Frontend/contexts/AuthContext.tsx:118-122 | the mock user may approve submissions and read the portfolio, but not write the portfolio or read documents |
| DocumentContext.ApplyFilters | Frontend/contexts/DocumentContext.tsx:81-92 | an order-preserving subsequence holding exactly the documents whose name contains the query (ignoring case) and whose type equals the filter |
| DocumentContext.NoFilterKeepsAll | Frontend/contexts/DocumentContext.tsx:82-91 | an empty query and no type filter keep every document |
| DocumentContext.ArrayTypeFilterMatchesNothing | Frontend/contexts/DocumentContext.tsx:88-90 | an array-valued type filter matches no document |
| DocumentContext.DeleteCommutesWithFilters | Frontend/contexts/DocumentContext.tsx:81-113 | deleting then filtering equals filtering then deleting |
| DocumentContext.DeleteKeepsSynced | Frontend/contexts/DocumentContext.tsx:111-113 | a delete keeps the filtered list equal to the filters applied to the documents |
| DocumentContext.DocumentStore.constructor | Frontend/contexts/DocumentContext.tsx:36-42 | empty lists, no filters, empty search |
| DocumentContext.DocumentStore.LoadDocuments | Frontend/contexts/DocumentContext.tsx:44-79 | both lists become the three mock documents and loading ends |
| DocumentContext.DocumentStore.SetFilters | Frontend/contexts/DocumentContext.tsx:41 | only the filters change |
| DocumentContext.DocumentStore.SetSearch | Frontend/contexts/DocumentContext.tsx:42 | only the query changes |
| DocumentContext.DocumentStore.Refresh | Frontend/contexts/DocumentContext.tsx:94-126 | the filtered list is recomputed from the documents, filters and query |
| DocumentContext.DocumentStore.ToggleDocumentSelection | Frontend/contexts/DocumentContext.tsx:99-103 | appends an absent id or removes a present one; nothing else changes |
| DocumentContext.DocumentStore.ClearFilters | Frontend/contexts/DocumentContext.tsx:105-109 | filters and search reset and the filtered list becomes all documents |
| DocumentContext.DocumentStore.DeleteDocument | Frontend/contexts/DocumentContext.tsx:111-115 | removes the id from the documents, the filtered list and the selection, and nothing else |
| SubmissionFilters.Values | Frontend/components/submissions/SubmissionFilters.tsx:65 | a filter object has at most seven values |
| SubmissionFilters.ListValueCount | Frontend/components/submissions/SubmissionFilters.tsx:65-71 | a list key counts once iff it is a non-empty array |
| SubmissionFilters.ActiveCountBounds | Frontend/components/submissions/SubmissionFilters.tsx:65-71 | the active count is at most seven, and 0 for the empty filter object |
| SubmissionFilters.EditList | Frontend/components/submissions/SubmissionFilters.tsx:73-110 | checking appends the value; unchecking removes every occurrence and keeps the rest in order |
| SubmissionFilters.CheckingActivatesKey | Frontend/components/submissions/SubmissionFilters.tsx:73-84 | checking a status appends it, makes that key active and leaves the other keys untouched |
| SubmissionFilters.DateEditorEffect | Frontend/components/submissions/SubmissionFilters.tsx:112-122 | clearing both bounds removes `dateRange`; otherwise only the named bound changes |
| SubmissionFilters.AmountEditorsEffect | Frontend/components/submissions/SubmissionFilters.tsx:305-336 | setting one bound keeps the other; clearing one bound while the other is absent or 0 removes `amountRange` |
| SubmissionFilters.FindSort | Frontend/components/submissions/SubmissionFilters.tsx:142-144 | `find` returns the first matching option, or none iff no option matches |
| SubmissionFilters.ParseSort | Frontend/components/submissions/SubmissionFilters.tsx:140-144 | a parsed selection is always one of the sort options |
| SubmissionFilters.OnSortChange | Frontend/components/submissions/SubmissionFilters.tsx:140-146 | an unmatched value changes nothing |
| SubmissionFilters.SplitPair | Frontend/components/submissions/SubmissionFilters.tsx:141 | splitting 'field-direction' at '-' gives the two parts back when neither has a dash |
| SubmissionFilters.SortOptionsDistinct | Frontend/components/submissions/SubmissionFilters.tsx:54-63 | the eight options differ in field or direction |
| SubmissionFilters.NoDashInFields | Frontend/components/submissions/SubmissionFilters.tsx:54-63 | no option's field contains '-' |
| SubmissionFilters.SortRoundTrip | Frontend/components/submissions/SubmissionFilters.tsx:140-146 | selecting an option's 'field-direction' value maps back to that option |
| DocumentsFilters.NullMakesTheDifference | Frontend/components/documents/DocumentsFilters.tsx:42-48 | this count differs from the submission filters' count exactly by the null values |
| DocumentsFilters.NullFiltersCountedHere | Frontend/components/documents/DocumentsFilters.tsx:42-48 | three null values count 3 here and 0 in the submission filters |
| DocumentsFilters.DocEditorsEffect | Frontend/components/documents/DocumentsFilters.tsx:50-82 | checking appends, unchecking removes every occurrence, and other keys are kept |
| DocumentsFilters.StrArray | Frontend/components/documents/DocumentsFilters.tsx:58 | the type list becomes an array value of the same length |
| DocumentsFilters.TypeEditHidesAllDocuments | Frontend/components/documents/DocumentsFilters.tsx:50-59 | the array this editor stores under `type` makes the document context's filter match nothing |
| Tables.SubmissionIds | Frontend/components/submissions/SubmissionTable.tsx:56 | the row ids in table order |
| Tables.DocumentIds | Frontend/components/documents/DocumentsTable.tsx:47 | the document ids in order |
| Tables.SelectAll | Frontend/components/submissions/SubmissionTable.tsx:54-60 | select-all gives every row id in order; unselect-all gives [] |
| Tables.SelectOneEffect | Frontend/components/submissions/SubmissionTable.tsx:62-68 | selecting appends the id; deselecting removes all its occurrences; select then deselect of an absent id restores the selection |
| Tables.FlagsExclusive | Frontend/components/submissions/SubmissionTable.tsx:128-129 | all-selected and some-selected are never both true, and both are false for an empty selection |
| Tables.FlagsCountNotIds | Frontend/components/documents/DocumentsTable.tsx:83-87 | the flags compare counts, so a selection can count as "all" while missing a row |
| Tables.DaysUntilDue | Frontend/components/submissions/SubmissionTable.tsx:79-81 | `Math.ceil` of the millisecond difference over one day |
| Tables.DueText | Frontend/components/submissions/SubmissionTable.tsx:83-86 | 'Due today' iff 0, 'Due tomorrow' iff 1, '|d| days overdue' iff negative, 'd days left' iff above 1 |
| Tables.DueTodayWindow | Frontend/components/submissions/SubmissionTable.tsx:79-86 | 'Due today' iff the due time is in the last 24 hours up to now; 'Due tomorrow' iff it is in the next 24 hours |
| Tables.OfferedTransitions | Frontend/components/submissions/SubmissionTable.tsx:266-283 | transitions are offered iff the status is pending_review or awaiting_approval, never to the same status |
| Tables.TransitionsFromDecidedAreNone | Frontend/components/submissions/SubmissionTable.tsx:266-283 | decided statuses offer nothing, and 'approved' is offered only from awaiting_approval |
| Tables.PerilSummaryAccounts | Frontend/components/submissions/SubmissionTable.tsx:197-198 | up to two perils are joined; beyond that the first two plus ' +k' with k = n-2 |
| UploadZone.ValidateFiles | Frontend/components/submissions/fileuploadzone.tsx:77-108 | the push loop's valid files and errors equal the `Validated` specification |
| UploadZone.ValidatedCount | Frontend/components/submissions/fileuploadzone.tsx:86-104 | each file is either valid or yields exactly one error |
| UploadZone.ValidatedIsCappedFilter | Frontend/components/submissions/fileuploadzone.tsx:81-105 | the valid files are the acceptable files, in order, cut at `maxFiles` |
| UploadZone.StepKeeps | Frontend/components/submissions/fileuploadzone.tsx:86-102 | one step adds the file iff it is acceptable and the zone is not full |
| UploadZone.CappedStep | Frontend/components/submissions/fileuploadzone.tsx:98-102 | the capped-filter characterisation survives one more file |
| UploadZone.ValidatedFacts | Frontend/components/submissions/fileuploadzone.tsx:81-105 | valid files are a subsequence of the input, at most `maxFiles`, each of an accepted type or named '.msg' (ignoring case), and within `maxFileSize` MB |
| UploadZone.FullZoneRejects | Frontend/components/submissions/fileuploadzone.tsx:98-102 | once the limit is reached, each further acceptable file adds 'Maximum N files allowed' |
| UploadZone.TakeAppend | Frontend/components/submissions/fileuploadzone.tsx:98-102 | a prefix cut at m grows by the new element only while shorter than m |
| UploadZone.ValidatedSnoc | Frontend/components/submissions/fileuploadzone.tsx:86-104 | validating one more file is one step on the previous result |
| UploadZone.FilterSnoc | Frontend/components/submissions/fileuploadzone.tsx:83-96 | the acceptable files of a longer list gain the new file iff it is acceptable |
| UploadZone.PrefixIsSubsequence | Frontend/components/submissions/fileuploadzone.tsx:98-102 | a prefix of a subsequence is a subsequence |
| UploadZone.FileTypeLabel | Frontend/components/submissions/fileuploadzone.tsx:59-67 | 'PDF' iff the type contains 'pdf'; 'MSG' only for 'outlook' or a name ending in '.msg' (case-sensitive); first match wins |
| UploadZone.MissingChar | Frontend/components/submissions/fileuploadzone.tsx:59-67 | a text lacking a character of the needle does not contain it |
| UploadZone.NoLabelMatch | Frontend/components/submissions/fileuploadzone.tsx:59-67 | a type and name lacking every keyword get 'Document' |
| UploadZone.UpperCaseNameLacksSuffix | Frontend/components/submissions/fileuploadzone.tsx:66 | 'MAIL.MSG' does not end in '.msg' |
| UploadZone.OctetStreamLacksLetters | Frontend/components/submissions/fileuploadzone.tsx:59-67 | 'application/octet-stream' contains none of the label keywords |
| UploadZone.UpperCaseMsgAccepted | Frontend/components/submissions/fileuploadzone.tsx:83-96 | an upper-case '.MSG' file counts as an Outlook message, since the suffix test ignores case, and passes validation |
| UploadZone.UpperCaseMsgLabelledDocument | Frontend/components/submissions/fileuploadzone.tsx:59-96 | the same file is accepted but labelled 'Document', because the label's '.msg' test is case-sensitive |
| UploadZone.UnitIndex | Frontend/components/submissions/fileuploadzone.tsx:72 | floor(log1024 bytes): 1024^i <= bytes < 1024^(i+1) |
| UploadZone.SizeUnit | Frontend/components/submissions/fileuploadzone.tsx:69-75 | 0 and sizes below 1024 read 'Bytes'; the unit is 'undefined' iff bytes >= 1024^4, past the four-entry table |
| UploadZone.PowMonotone | Frontend/components/submissions/fileuploadzone.tsx:72 | powers of 1024 are increasing |
| UploadZone.UnitIndexUnique | Frontend/components/submissions/fileuploadzone.tsx:72 | the band containing a size is unique |
| UploadZone.SizeUnitBands | Frontend/components/submissions/fileuploadzone.tsx:69-75 | KB exactly on [1024, 1024^2), MB on [1024^2, 1024^3), GB on [1024^3, 1024^4) |
| SubmissionPreview.TotalSize | Frontend/components/submissions/SubmissionPreview.tsx:96-98 | every file's size is at most the total, and the total is 0 iff all sizes are 0 |
| SubmissionPreview.SizeSumAppend | Frontend/components/submissions/SubmissionPreview.tsx:96-98 | the sum distributes over concatenation |
| SubmissionPreview.TotalSizeIsSum | Frontend/components/submissions/SubmissionPreview.tsx:96-98 | the `reduce` from the left equals the sum of the sizes |
| SubmissionPreview.TotalSizeAppend | Frontend/components/submissions/SubmissionPreview.tsx:96-98 | the total of two lists is the sum of their totals |
| SubmissionPreview.CompletedFiles | Frontend/components/submissions/SubmissionPreview.tsx:100-280 | at most the number of files; 0 iff none is completed; all iff every file is |
| SubmissionPreview.CompletedFilesAppend | Frontend/components/submissions/SubmissionPreview.tsx:100-102 | the count adds up over concatenation |
| SubmissionPreview.PriorityColor | Frontend/components/submissions/SubmissionPreview.tsx:70-81 | high, medium and low get their colours; the gray default iff the priority is none of them |
| SubmissionPreview.StatusBadge | Frontend/components/submissions/SubmissionPreview.tsx:318 | the status with only its first letter upper-cased |
| SubmissionPreview.TotalSizeUnit | Frontend/components/submissions/SubmissionPreview.tsx:54-281 | the preview's total uses the drop zone's unit choice, 'Bytes' for an empty list |
| Stats.Aggregate | Frontend/lib/submissions/stats.ts:9-26 | total is the number of submissions; the delta and the sum of the three status counts are at most the total |
| Stats.AggregateAppend | Frontend/lib/submissions/stats.ts:10-24 | one more submission raises each counter by 1 exactly when it meets that counter's test |
| Stats.CountSnoc | Frontend/lib/submissions/stats.ts:10-24 | a count over a list grows by one element's test |
| Stats.OtherStatusesOnlyInTotal | Frontend/lib/submissions/stats.ts:20-24 | a submission with another status changes only the total and possibly the delta |
| Stats.DeltaMonotone | Frontend/lib/submissions/stats.ts:11-15 | an earlier cut-off counts at least as many recent submissions |
| Transformers.SerializeDocument | Frontend/lib/submissions/transformers.ts:71-85 | the document points back to the submission; uploader and checksum default to '' |
| Transformers.SerializeDocuments | Frontend/lib/submissions/transformers.ts:71-85 | one document per input, in order |
| Transformers.TagValues | Frontend/lib/submissions/transformers.ts:138 | the tag values in order |
| Transformers.Serialize | Frontend/lib/submissions/transformers.ts:4-141 | the working sheet repeats the risk and premium figures, documents point back to the submission, the due date is the policy end and the submission date its start |
| Transformers.MissingRiskDefaults | Frontend/lib/submissions/transformers.ts:48-135 | missing risk details give 'Unknown', no perils, 0 and 'USD' in both places |
| Transformers.PresentRiskCarried | Frontend/lib/submissions/transformers.ts:48-58 | present risk details are carried over |
| Transformers.DueDateFallback | Frontend/lib/submissions/transformers.ts:54-69 | a missing due date falls back to the submission date |
| Transformers.RelationsCarried | Frontend/lib/submissions/transformers.ts:39-70 | broker absent stays absent; assignedTo is the assignee's name |
| Transformers.DocumentsInOrder | Frontend/lib/submissions/transformers.ts:71-85 | documents and tags keep their order and count |
| Transformers.FixedFields | Frontend/lib/submissions/transformers.ts:59-139 | commission, brokerage and requested share are 0, no AI analysis, version 1 |
| SubmissionsRoute.DecimalToNumber | Frontend/app/api/submissions/route.ts:48-53 | null and undefined give 0; numbers pass through; decimals convert |
| SubmissionsRoute.Party | Frontend/app/api/submissions/route.ts:63-78 | id and name are carried; a missing country becomes '' |
| SubmissionsRoute.Ref | Frontend/app/api/submissions/route.ts:68-84 | the relation is present iff the row has it, with its id and name; otherwise null |
| SubmissionsRoute.Risk | Frontend/app/api/submissions/route.ts:85-92 | the class is carried; missing perils become [] and a missing currency 'USD' |
| SubmissionsRoute.Financial | Frontend/app/api/submissions/route.ts:93-101 | a missing currency becomes 'USD'; a null amount becomes 0 |
| SubmissionsRoute.Transform | Frontend/app/api/submissions/route.ts:55-103 | each optional relation is present iff it was in the row; the due date is null iff absent |
| SubmissionsRoute.TransformDefaults | Frontend/app/api/submissions/route.ts:62-101 | missing countries become '', missing perils [], missing currencies 'USD' |
| SubmissionsRoute.ParseNumber | Frontend/app/api/submissions/route.ts:108 | `Number(text)` on trimmed text: empty is 0, an optional sign with digits is its value, anything else is NaN |
| SubmissionsRoute.ParseDigits | Frontend/app/api/submissions/route.ts:108 | a digit string parses to its decimal value |
| SubmissionsRoute.ParseNegative | Frontend/app/api/submissions/route.ts:108 | '-' and digits parse to the negated value |
| SubmissionsRoute.StripKeepsDigits | Frontend/app/api/submissions/route.ts:108 | trimming leaves a digit string alone |
| SubmissionsRoute.ParseRendered | Frontend/app/api/submissions/route.ts:108 | the decimal rendering of any integer parses back to it |
| SubmissionsRoute.DefaultLimitIsFifty | Frontend/app/api/submissions/route.ts:108 | the default '50' parses to 50 |
| SubmissionsRoute.Plan | Frontend/app/api/submissions/route.ts:107-143 | a single lookup exactly when a non-empty id is given; otherwise a list whose bound is 50 without a limit parameter and the parsed limit with one |
| SubmissionsRoute.EmptyLimitIsZero | Frontend/app/api/submissions/route.ts:108-143 | `limit=` takes 0 submissions |
| SubmissionsRoute.NonNumericLimitIsUnbounded | Frontend/app/api/submissions/route.ts:108-143 | a limit starting with a letter means no limit |
| SubmissionsRoute.EmptyIdLists | Frontend/app/api/submissions/route.ts:111 | an empty id is falsy and lists instead |
| SubmissionsRoute.StatsInputs | Frontend/app/api/submissions/route.ts:147 | the statistics see every listed row's status and creation time, in order |
| SubmissionsRoute.TransformAll | Frontend/app/api/submissions/route.ts:150 | one DTO per row, in order |
| SubmissionsRoute.Get | Frontend/app/api/submissions/route.ts:105-161 | an unknown id gives 404 'Submission not found'; a found one its transformed row; a failed query gives 500 and nothing else does; a listing returns each row transformed, in order, with the statistics aggregated over the rows' statuses and creation times |
| MsgReader.ReplaceChar | Backend/services/msg_reader_service.py:168-169 | `str.replace(c, '_')` is one-for-one |
| MsgReader.Masked | Backend/services/msg_reader_service.py:167-174 | after replacing a set of characters, each position holds '_' or its original, non-masked character |
| MsgReader.MaskedTwice | Backend/services/msg_reader_service.py:167-174 | masking is idempotent |
| MsgReader.Truncate | Backend/services/msg_reader_service.py:180-181 | `[:n]` is a prefix of at most n characters, the whole string when short enough |
| MsgReader.SanitizeFileName | Backend/services/msg_reader_service.py:153-183 | None for None or ''; otherwise the replacing loops produce `SafeFileName` of the input |
| MsgReader.SanitizeDirectoryName | Backend/services/msg_reader_service.py:231-260 | the replacing loop and the fallback produce `SafeDirectoryName` of the input, 'unnamed' for missing input |
| MsgReader.FileNameFacts | Backend/services/msg_reader_service.py:167-183 | the file name is at most 100 characters, has no invalid character and no whitespace at either end, and is a contiguous run of the masked input |
| MsgReader.FileNameIsRunOfMasked | Backend/services/msg_reader_service.py:167-183 | strip, cut and strip leave a contiguous run of the masked name |
| MsgReader.RunChars | Backend/services/msg_reader_service.py:177-183 | a run of a string only has characters of that string |
| MsgReader.MaskedClean | Backend/services/msg_reader_service.py:167-174 | a masked string has none of the masked characters |
| MsgReader.StripIsRun | Backend/services/msg_reader_service.py:177-183 | `strip` leaves a contiguous run |
| MsgReader.TruncateIsRun | Backend/services/msg_reader_service.py:180-181 | the cut leaves a contiguous run |
| MsgReader.RunOfRun | Backend/services/msg_reader_service.py:177-183 | a run of a run is a run |
| MsgReader.StripRunIsRun | Backend/services/msg_reader_service.py:177-183 | stripping a contiguous run of a string leaves a run of it |
| MsgReader.TruncateRunIsRun | Backend/services/msg_reader_service.py:180-181 | cutting a contiguous run of a string leaves a run of it |
| MsgReader.CutIsRun | Backend/services/msg_reader_service.py:177-183 | the whole pipeline leaves a run |
| MsgReader.DotsAndSpacesStripAway | Backend/services/msg_reader_service.py:177 | a name of only dots and spaces strips to '' |
| MsgReader.DotsAndSpacesFileName | Backend/services/msg_reader_service.py:167-183 | such a name sanitises to '' |
| MsgReader.CutChars | Backend/services/msg_reader_service.py:250-254 | the cut keeps only characters of the name |
| MsgReader.UnderscoreIsValid | Backend/services/msg_reader_service.py:241-245 | '_' is not an invalid character |
| MsgReader.DirectoryNameClean | Backend/services/msg_reader_service.py:241-258 | a directory name has no invalid character |
| MsgReader.DirectoryNameFacts | Backend/services/msg_reader_service.py:231-260 | never empty, at most 100 characters, no invalid character, and 'unnamed' for a name of dots and spaces |
| MsgReader.Or | Backend/services/msg_reader_service.py:96-98 | Python `a or b`: '' and None fall through to b |
| MsgReader.AttachmentRecord | Backend/services/msg_reader_service.py:74-100 | name falls back from long to short name to 'unknown'; type to 'application/octet-stream'; missing or unconvertible data gives size 0 and no data; kept data has its length as size |
| MsgReader.AttachmentNames | Backend/services/msg_reader_service.py:201 | the attachment names in attachment order |
| MsgReader.BodyPreview | Backend/services/msg_reader_service.py:199 | the body itself up to 200 characters, otherwise its first 200 plus '...' |
| MsgReader.EmailSummary | Backend/services/msg_reader_service.py:185-202 | None iff nothing has been read; the count equals the number of attachments and of names; the preview is at most 203 characters |
| MsgReader.UploadableAttachments | Backend/services/msg_reader_service.py:204-228 | an order-preserving subsequence holding exactly the attachments that carry data; [] before a read |
| MsgReader.Reader.constructor | Backend/services/msg_reader_service.py:21-30 | no e-mail data before a read |
| MsgReader.Reader.ExtractAttachments | Backend/services/msg_reader_service.py:67-103 | appends one record per raw attachment, in order; does nothing before a read |
| MsgReader.Reader.ReadMsgFile | Backend/services/msg_reader_service.py:32-65 | a parse failure leaves no data and returns None; otherwise the data holds the message fields and its attachment records |
| MsgReader.Records | Backend/services/msg_reader_service.py:73-101 | one record per raw attachment, in order |
| MsgReader.RecordsSnoc | Backend/services/msg_reader_service.py:73-101 | one more attachment adds its record at the end |
| MsgReader.Read | Backend/services/msg_reader_service.py:44-59 | the record keeps the file path and has one attachment per raw attachment; a missing body or subject becomes '' |
| MsgReader.SummaryAfterRead | Backend/services/msg_reader_service.py:185-202 | after a read the summary exists, counts every attachment and names each with the long, short, 'unknown' fallback |
| DocumentProcessing.Fallback | Backend/services/document_processing_service.py:149-162 | without a parser the record is 'limited', keeps the URL and carries a message |
| DocumentProcessing.PagesText | Backend/services/document_processing_service.py:113-117 | each page adds its text and a blank line, so at least two characters per page |
| DocumentProcessing.ProcessSingle | Backend/services/document_processing_service.py:72-147 | the URL is kept; the status is success, limited or access_denied; no parser gives the fallback; access_denied iff there is a parser and the download answered 401 |
| DocumentProcessing.ProcessDocuments | Backend/services/document_processing_service.py:43-70 | one result per URL, in order; an exception becomes a 'failed' record with empty text and tables |
| DocumentProcessing.SingleNeverFails | Backend/services/document_processing_service.py:53-70 | when no attempt raises, no result is 'failed' |
| DocumentProcessing.Summary | Backend/services/document_processing_service.py:193-206 | total is the number of documents; success + failed + limited <= total; the rate is 0 for no documents and lies in [0, 1] |
| DocumentProcessing.RatioAtMostOne | Backend/services/document_processing_service.py:205 | a count over a positive total is at most 1 |
| DocumentProcessing.ExtractKeyInformation | Backend/services/document_processing_service.py:164-191 | the loop's combined text and tables equal the contributing documents' text + "\n\n" and tables, in order; the count covers all documents and the length is the text's |
| DocumentProcessing.UnusableAddsNothing | Backend/services/document_processing_service.py:177-180 | failed and access_denied documents add no text and no tables |
| DocumentProcessing.CombinedTextLength | Backend/services/document_processing_service.py:177-187 | the combined length is at least two characters per contributing document |
| DocumentProcessing.CombinedTextAppend | Backend/services/document_processing_service.py:177-180 | the combined text of two lists is the concatenation of theirs |
| JsonSerializer.MakeSerializable | Backend/utils/json_serializer.py:13-70 | the result is JSON-shaped; a dict keeps its keys and length; lists, tuples and sets become lists of the same length |
| JsonSerializer.MakeAll | Backend/utils/json_serializer.py:55-60 | element by element |
| JsonSerializer.MakeEntries | Backend/utils/json_serializer.py:51-52 | key by key, keys unchanged |
| JsonSerializer.JsonUnchanged | Backend/utils/json_serializer.py:23-60 | a JSON-shaped value is returned unchanged |
| JsonSerializer.Idempotent | Backend/utils/json_serializer.py:13-70 | converting twice equals converting once |
| JsonSerializer.ScalarConversions | Backend/utils/json_serializer.py:31-48 | datetime gives its ISO text, UUID its text, Decimal a float, a model its dict or `str(obj)` |
| JsonSerializer.FallbackRecord | Backend/utils/json_serializer.py:85-93 | the error object's representation is a prefix of at most 1000 characters |
| JsonSerializer.SafeJsonDumps | Backend/utils/json_serializer.py:72-93 | the dump of the converted value with the caller's options when that succeeds; otherwise the error record dumped with plain `json.dumps` |
| JsonSerializer.SafeDumpsSucceeds | Backend/utils/json_serializer.py:72-93 | never fails, whatever the caller's options do, provided plain `json.dumps` accepts a record of three strings; when the options accept the converted value, its text is returned |
| JsonSerializer.FallbackIgnoresOptions | Backend/utils/json_serializer.py:86-93 | once the caller's options fail, the returned text is the plain dump of the error record, the same for any failing options |
| StatusSpelling.Replies | Frontend/lib/api.ts:185 | the poller's view of repeated status requests for one task |
| StatusSpelling.BackendStatesNotTerminal | Backend/main_celery.py:100-121 | the records sent for PROGRESS and FAILURE are not terminal for the frontend poller |
| StatusSpelling.FailedTaskTimesOut | Frontend/lib/api.ts:191 | a failed Celery task never ends the poll: it times out after every attempt instead of reporting the failure |
| StatusSpelling.BackendStatesLabelledUnknown | Frontend/components/analysis/TaskStatusTracker.tsx:69-82 | the backend's PROGRESS and FAILURE are shown as 'Unknown' |
| StatusSpelling.UpperCaseMsgRefusedOnSubmit | Backend/main_celery.py:59-60 | 'MAIL.MSG' passes the drop zone but is refused by the submit endpoint |

## Left out

- Network, timers and React scheduling: `fetch`, `setTimeout` sleeps, `setInterval` and effect
  timing. Replies, outcomes and clocks are parameters. The `isPolling` guard is modelled
  sequentially and no mutual exclusion is claimed.
- File and library I/O:
  - the history file is a field, and an `IoFaults` value says which file-system call throws
    and what a failed creation or write leaves behind;
  - the temp file in `submit_analysis`;
  - extract_msg parsing (a `ParsedMessage` value stands for its result);
  - base64 encoding and `save_attachments` in the `.msg` reader;
  - the LlamaParse download and parse (a `FetchOutcome` stands for it);
  - localStorage in the auth context;
  - the DOM blob download in the history panel.
- Prisma queries: the submissions GET takes the query results as `Result` values. The
  `metadata` block of its listing reply is not modelled.
- Concurrent POSTs racing on the history file: upserts are sequential.
- Floating point:
  - the label helpers use `real`;
  - `formatFileSize` is modelled only by its unit choice, without `toFixed` or `Math.log` rounding;
  - Decimal-to-float conversion is exact;
  - `success_rate` is only bounded in [0, 1].
- Dates are integers (milliseconds, or ISO text as an opaque string). Stats takes the one-week
  cut-off as a parameter instead of reading the clock.
- Unicode: lower/upper case mapping is ASCII. JavaScript `trim` uses ASCII whitespace.
  Python `str.strip()` uses its 29 whitespace characters.
- SubmissionsRoute.ParseNumber: reads only an optional sign and decimal digits. Exponents,
  fractions, hex and 'Infinity', which JavaScript `Number` also accepts, are read as NaN
  (no limit).
- JsonSerializer.MakeSerializable: dict keys are strings. An object whose `.dict()` raises
  is given as a model without a dict. `validate_json_serializable` and the logging are not modelled.
- JsonSerializer.SafeJsonDumps: both `json.dumps` calls are parameters, `dumps` with the
  caller's options and `plainDumps` without them. The `str(type(obj))` and `str(obj)` texts
  are given, not computed.
- MsgReader.Reader.ExtractAttachments: an exception part-way through the attachment list is
  not modelled; every raw attachment yields a record.
- DocumentProcessing.ProcessSingle: the real download and parse is an input outcome, and
  table extraction is the parser's table list.
- The async mock action creators in the submission context, which only sleep and dispatch
  reducer actions, are not modelled; the reducer is.
- Presentation-only code, charts, the LLM analysis service and the Celery task
  orchestration are outside this model.
