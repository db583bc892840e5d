/**
 * The dashboard's analysis-history panel: it loads the history once per mount, shows
 * its first `limit` records, and exports a record as a JSON download.
 */
module HistoryPanel {
  import opened Wrappers
  import opened Seqs
  import opened Text
  import opened HistoryStore

  const DEFAULT_LIMIT: int := 20

  /** The reply of the panel's fetch of the history endpoint. */
  datatype FetchReply =
    | HttpStatus(code: int)                    // a non-2xx response
    | Unsuccessful(error: Option<string>)      // `success: false`
    | Listed(history: seq<Record>)             // `success: true`
    | Thrown(message: Option<string>)          // a thrown value; `None` when it is not an Error

  /** The message a failed load stores. */
  function LoadError(reply: FetchReply): string
    requires !reply.Listed?
  {
    match reply
    case HttpStatus(code) => "HTTP " + IntToString(code)
    case Unsuccessful(e) => StringOr(e, "Failed to load analysis history")
    case Thrown(m) => m.GetOr("Unable to load history")
  }

  class Panel {
    const limit: int
    var history: seq<Record>
    var isLoading: bool
    var error: Option<string>
    /** The `mounted` flag of the effect run whose fetch is in flight. */
    var mounted: bool

    constructor(limit: int)
      ensures this.limit == limit && history == [] && !isLoading && error == None && !mounted
    {
      this.limit := limit;
      history := [];
      isLoading := false;
      error := None;
      mounted := false;
    }

    /** The effect runs: a fresh `mounted` flag, then the synchronous start of `fetchHistory`. */
    method BeginFetch()
      modifies this
      ensures mounted && isLoading && error == None && history == old(history)
    {
      mounted := true;
      isLoading := true;
      error := None;
    }

    /** The effect's cleanup. */
    method Unmount()
      modifies this
      ensures !mounted && isLoading == old(isLoading) && error == old(error) && history == old(history)
    {
      mounted := false;
    }

    /** The rest of `fetchHistory` once its fetch has replied. */
    method CompleteFetch(reply: FetchReply)
      modifies this
      ensures !old(mounted) ==>
        history == old(history) && isLoading == old(isLoading) && error == old(error) && mounted == old(mounted)
      ensures old(mounted) ==> mounted && !isLoading
      ensures old(mounted) && reply.Listed? ==>
        history == SliceTo(reply.history, limit) && error == old(error)
      ensures old(mounted) && !reply.Listed? ==>
        history == old(history) && error == Some(LoadError(reply))
    {
      if reply.Listed? {
        if mounted {
          history := SliceTo(reply.history, limit);
        }
      } else {
        var message := LoadError(reply);
        if mounted {
          error := Some(message);
        }
      }
      if mounted {
        isLoading := false;
      }
    }
  }

  /** With a non-negative limit the panel shows the first `limit` records in server order. */
  lemma ShownIsBoundedPrefix(history: seq<Record>, limit: int)
    requires limit >= 0
    ensures |SliceTo(history, limit)| <= limit
    ensures SliceTo(history, limit) == history[..|SliceTo(history, limit)|]
    ensures |history| <= limit ==> SliceTo(history, limit) == history
  {
  }

  // ---------------------------------------------------------------------------
  // Download

  /** The characters the download name keeps: ASCII letters and digits, '-', '_' and '.'. */
  predicate AllowedInName(c: char) {
    'a' <= c <= 'z' || 'A' <= c <= 'Z' || '0' <= c <= '9' || c == '-' || c == '_' || c == '.'
  }

  /** `fileName.replace(/[^a-z0-9-_\.]/gi, '_')`. */
  function SanitizeFileName(name: string): (r: string)
    ensures |r| == |name|
    ensures forall i | 0 <= i < |name| :: r[i] == (if AllowedInName(name[i]) then name[i] else '_')
  {
    if name == [] then [] else [if AllowedInName(name[0]) then name[0] else '_'] + SanitizeFileName(name[1..])
  }

  /** A sanitized name holds only allowed characters, and sanitizing it again changes nothing. */
  lemma SanitizeFileNameIdempotent(name: string)
    ensures forall c | c in SanitizeFileName(name) :: AllowedInName(c)
    ensures SanitizeFileName(SanitizeFileName(name)) == SanitizeFileName(name)
  {
  }

  /** The name the record downloads as: the sanitized file name, or the task id when there is none, then '_', the task id and '.json'. */
  function DownloadName(record: Record): (name: string)
    ensures EndsWith(name, "_" + record.taskId + ".json")
    ensures record.fileName.Some? && record.fileName.value != "" ==>
      name == SanitizeFileName(record.fileName.value) + "_" + record.taskId + ".json"
    ensures record.fileName.None? || record.fileName.value == "" ==>
      name == record.taskId + "_" + record.taskId + ".json"
  {
    var base := if record.fileName.Some? && record.fileName.value != "" then SanitizeFileName(record.fileName.value)
                else record.taskId;
    assert base + "_" + record.taskId + ".json" == base + ("_" + record.taskId + ".json");
    base + "_" + record.taskId + ".json"
  }

  /** The exported JSON object. */
  datatype ExportData = ExportData(
    taskId: string,
    completedAt: int,
    status: HistoryStatus,
    metadata: Option<Blob>,
    result: Option<Blob>,
    progressHistory: Option<seq<ProgressSnapshot>>)

  function ExportOf(record: Record): ExportData {
    ExportData(record.taskId, record.completedAt, record.status, record.metadata, record.result, record.progressHistory)
  }

  /**
   * The export holds exactly six fields of the record: two records agreeing on them export
   * the same object, whatever their file name, start time, error or persistence tag, and
   * each exported field is the record's own.
   */
  lemma ExportHasExactlySixFields(a: Record, b: Record)
    requires a.taskId == b.taskId && a.completedAt == b.completedAt && a.status == b.status
    requires a.metadata == b.metadata && a.result == b.result && a.progressHistory == b.progressHistory
    ensures ExportOf(a) == ExportOf(b)
    ensures ExportOf(a).taskId == a.taskId && ExportOf(a).result == a.result
  {
  }
}
