/**
 * The document-processing service of the analysis backend: one result record per document
 * URL, the text and tables gathered from the usable records, and the processing summary.
 * Downloading and parsing are outside the model: their outcome is a parameter.
 */
module DocumentProcessing {
  import opened Wrappers
  import opened Seqs
  import opened Text
  import MsgReader

  /** A table the parser extracted; the service passes tables along without reading them. */
  datatype Table = Table(id: nat)

  /** A result record; a key that may be missing is an `Option`. */
  datatype ProcessedDoc = ProcessedDoc(
    url: string, status: Option<string>, error: Option<string>,
    extractedText: Option<string>, tables: Option<seq<Table>>)

  /** What became of the download and parse of one document. */
  datatype FetchOutcome =
    | Unauthorized                            // the download answered 401
    | FetchFailed                             // another HTTP error, a timeout, or a failed parse
    | Parsed(pages: seq<string>, pageTables: seq<seq<Table>>)

  /** `_fallback_processing`. */
  function Fallback(url: string): (d: ProcessedDoc)
    ensures d.status == Some("limited") && d.tables == Some([]) && d.url == url
  {
    ProcessedDoc(url, Some("limited"), None,
      Some("Document available at: " + url + "\n[LlamaParse not available - manual review required]"), Some([]))
  }

  /** The page texts, each followed by a blank line. */
  function PagesText(pages: seq<string>): (t: string)
    ensures |t| >= 2 * |pages|
  {
    if pages == [] then "" else PagesText(pages[..|pages| - 1]) + pages[|pages| - 1] + "\n\n"
  }

  function Flatten(tables: seq<seq<Table>>): seq<Table> {
    if tables == [] then [] else Flatten(tables[..|tables| - 1]) + tables[|tables| - 1]
  }

  /**
   * `process_single_document`: without a parser, or when the download or parse fails, the
   * fallback record; a 401 gives an access-denied record; a parse gives the page texts.
   */
  function ProcessSingle(url: string, parserAvailable: bool, outcome: FetchOutcome): (d: ProcessedDoc)
    ensures d.url == url
    ensures d.status in {Some("success"), Some("limited"), Some("access_denied")}
    ensures !parserAvailable ==> d == Fallback(url)
    ensures d.status == Some("access_denied") <==> parserAvailable && outcome.Unauthorized?
  {
    if !parserAvailable then Fallback(url)
    else match outcome
      case Unauthorized =>
        ProcessedDoc(url, Some("access_denied"), Some("401 Unauthorized - File may be private or access denied"),
          Some("Document at " + url + " requires authentication"), Some([]))
      case FetchFailed => Fallback(url)
      case Parsed(pages, pageTables) =>
        ProcessedDoc(url, Some("success"), None, Some(Strip(PagesText(pages), MsgReader.PY_WHITESPACE)), Some(Flatten(pageTables)))
  }

  /** What one call of `process_single_document` did: returned a record or raised. */
  datatype Attempt = Returned(doc: ProcessedDoc) | Raised(message: string)

  function FailedRecord(url: string, message: string): ProcessedDoc {
    ProcessedDoc(url, Some("failed"), Some(message), Some(""), Some([]))
  }

  function ResultFor(url: string, a: Attempt): ProcessedDoc {
    if a.Returned? then a.doc else FailedRecord(url, a.message)
  }

  /**
   * `process_documents`: exactly one result per URL, in order; a call that raised leaves
   * a failed record with no text and no tables.
   */
  method ProcessDocuments(urls: seq<string>, attempt: string -> Attempt) returns (results: seq<ProcessedDoc>)
    ensures |results| == |urls|
    ensures forall i | 0 <= i < |urls| :: results[i] == ResultFor(urls[i], attempt(urls[i]))
    ensures forall i | 0 <= i < |urls| && attempt(urls[i]).Raised? ::
      results[i].status == Some("failed") && results[i].url == urls[i]
      && results[i].extractedText == Some("") && results[i].tables == Some([])
  {
    results := [];
    for k := 0 to |urls|
      invariant |results| == k
      invariant forall i | 0 <= i < k :: results[i] == ResultFor(urls[i], attempt(urls[i]))
    {
      var a := attempt(urls[k]);
      if a.Returned? {
        results := results + [a.doc];
      } else {
        results := results + [FailedRecord(urls[k], a.message)];
      }
    }
  }

  /**
   * `process_single_document` never raises, so processing through it yields no failed
   * record: every result is a success, a fallback or an access-denied record.
   */
  lemma SingleNeverFails(urls: seq<string>, parserAvailable: bool, fetch: string -> FetchOutcome, i: nat)
    requires i < |urls|
    ensures var a := Returned(ProcessSingle(urls[i], parserAvailable, fetch(urls[i])));
      ResultFor(urls[i], a).status != Some("failed")
  {
  }

  // ---- extract_key_information

  predicate Contributes(d: ProcessedDoc) {
    d.status == Some("success") || d.status == Some("limited")
  }

  /** The text one usable record adds to `combined_text`. */
  function TextOf(d: ProcessedDoc): string {
    if d.extractedText.Some? then d.extractedText.value else ""
  }

  function TablesOf(d: ProcessedDoc): seq<Table> {
    if d.tables.Some? then d.tables.value else []
  }

  /** `combined_text` after the given records. */
  function CombinedText(docs: seq<ProcessedDoc>): string {
    if docs == [] then ""
    else
      var last := docs[|docs| - 1];
      CombinedText(docs[..|docs| - 1]) + (if Contributes(last) then TextOf(last) + "\n\n" else "")
  }

  /** `all_tables` after the given records. */
  function AllTables(docs: seq<ProcessedDoc>): seq<Table> {
    if docs == [] then []
    else
      var last := docs[|docs| - 1];
      AllTables(docs[..|docs| - 1]) + (if Contributes(last) then TablesOf(last) else [])
  }

  datatype ProcessingSummary = ProcessingSummary(
    totalDocuments: nat, successfulParses: nat, failedParses: nat, limitedParses: nat, successRate: real)

  function IsStatus(s: string): ProcessedDoc -> bool {
    (d: ProcessedDoc) => d.status == Some(s)
  }

  /**
   * `_generate_processing_summary`. Access-denied records are in none of the three counts,
   * so the counts may add up to less than the total.
   */
  function Summary(docs: seq<ProcessedDoc>): (s: ProcessingSummary)
    ensures s.totalDocuments == |docs|
    ensures s.successfulParses + s.failedParses + s.limitedParses <= s.totalDocuments
    ensures docs == [] ==> s.successRate == 0.0
    ensures 0.0 <= s.successRate <= 1.0
  {
    ExclusiveCountsBounded(docs, IsStatus("success"), IsStatus("failed"), IsStatus("limited"));
    var success := CountWhere(docs, IsStatus("success"));
    RatioAtMostOne(success, |docs|);
    ProcessingSummary(
      |docs|, success, CountWhere(docs, IsStatus("failed")), CountWhere(docs, IsStatus("limited")),
      if docs != [] then success as real / |docs| as real else 0.0)
  }

  lemma RatioAtMostOne(part: nat, whole: nat)
    requires part <= whole
    ensures 0 < whole ==> 0.0 <= part as real / whole as real <= 1.0
  {
    if 0 < whole {
      var r := part as real / whole as real;
      assert r * whole as real == part as real;
    }
  }

  datatype KeyInfo = KeyInfo(
    combinedText: string, tables: seq<Table>, documentCount: nat, totalTextLength: nat,
    processingSummary: ProcessingSummary)

  /**
   * `extract_key_information`: the loop gathers the text and tables of the successful and
   * limited records in order; the counts cover every record.
   */
  method ExtractKeyInformation(docs: seq<ProcessedDoc>) returns (info: KeyInfo)
    ensures info.combinedText == CombinedText(docs) && info.tables == AllTables(docs)
    ensures info.documentCount == |docs| && info.totalTextLength == |info.combinedText|
    ensures info.processingSummary == Summary(docs)
  {
    var combinedText := "";
    var allTables := [];
    for k := 0 to |docs|
      invariant combinedText == CombinedText(docs[..k]) && allTables == AllTables(docs[..k])
    {
      assert docs[..k + 1][..k] == docs[..k];
      var doc := docs[k];
      if doc.status == Some("success") || doc.status == Some("limited") {
        combinedText := combinedText + TextOf(doc) + "\n\n";
        allTables := allTables + TablesOf(doc);
      }
    }
    assert docs[..|docs|] == docs;
    info := KeyInfo(combinedText, allTables, |docs|, |combinedText|, Summary(docs));
  }

  /** Failed and access-denied records add no text and no tables. */
  lemma UnusableAddsNothing(docs: seq<ProcessedDoc>, d: ProcessedDoc)
    requires d.status == Some("failed") || d.status == Some("access_denied")
    ensures CombinedText(docs + [d]) == CombinedText(docs)
    ensures AllTables(docs + [d]) == AllTables(docs)
  {
    assert (docs + [d])[..|docs|] == docs;
    assert CombinedText(docs) + "" == CombinedText(docs);
    assert AllTables(docs) + [] == AllTables(docs);
  }

  function CountContributing(docs: seq<ProcessedDoc>): nat {
    if docs == [] then 0 else CountContributing(docs[..|docs| - 1]) + (if Contributes(docs[|docs| - 1]) then 1 else 0)
  }

  /** Every usable record adds its text followed by a blank line. */
  lemma {:induction false} CombinedTextLength(docs: seq<ProcessedDoc>)
    ensures |CombinedText(docs)| >= 2 * CountContributing(docs)
    decreases |docs|
  {
    if docs != [] {
      CombinedTextLength(docs[..|docs| - 1]);
    }
  }

  /** Gathering over two batches is gathering over the first, then the second. */
  lemma {:induction false} CombinedTextAppend(a: seq<ProcessedDoc>, b: seq<ProcessedDoc>)
    ensures CombinedText(a + b) == CombinedText(a) + CombinedText(b)
    decreases |b|
  {
    if b == [] {
      assert a + b == a;
    } else {
      var init := b[..|b| - 1];
      assert (a + b)[..|a + b| - 1] == a + init;
      CombinedTextAppend(a, init);
    }
  }
}
