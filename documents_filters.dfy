/**
 * The documents filter panel: its active-filter count, which unlike the submissions
 * panel counts `null` values, and its type, uploader and date editors.
 */
module DocumentsFilters {
  import opened Wrappers
  import opened Seqs
  import opened SubmissionTypes
  import opened SubmissionFilters
  import DocumentContext

  datatype DocFilters = DocFilters(docType: Slot<seq<string>>, uploadedBy: Slot<seq<string>>, dateRange: Slot<DateRange>)

  const NO_DOC_FILTERS: DocFilters := DocFilters(Absent, Absent, Absent)

  /** `Object.values(filters)` of the documents panel. */
  function DocValues(f: DocFilters): seq<FilterValue> {
    ListValueOf(f.docType) + ListValueOf(f.uploadedBy) + DateValueOf(f.dateRange)
  }

  /** A value the documents panel counts: as the submissions panel, but `null` counts too. */
  predicate DocCountedActive(v: FilterValue) {
    match v
    case ListValue(n) => n > 0
    case ObjectValue(k) => k > 0
    case NullValue => true
    case UndefinedValue => false
  }

  function IsNull(v: FilterValue): bool {
    v.NullValue?
  }

  /** `activeFiltersCount` of the documents panel. */
  function DocActiveFiltersCount(f: DocFilters): nat {
    CountWhere(DocValues(f), DocCountedActive)
  }

  /** On any list of values, the documents rule counts what the submissions rule counts plus every `null`. */
  lemma {:induction false} NullMakesTheDifference(vs: seq<FilterValue>)
    ensures CountWhere(vs, DocCountedActive) == CountWhere(vs, CountedActive) + CountWhere(vs, IsNull)
  {
    if vs != [] {
      NullMakesTheDifference(vs[1..]);
    }
  }

  /** So a filter object whose keys are all `null` counts as fully active here and as empty there. */
  lemma NullFiltersCountedHere()
    ensures DocActiveFiltersCount(DocFilters(Null, Null, Null)) == 3
    ensures CountWhere(DocValues(DocFilters(Null, Null, Null)), CountedActive) == 0
  {
    NullMakesTheDifference(DocValues(DocFilters(Null, Null, Null)));
  }

  function EditType(f: DocFilters, t: string, checked: bool): DocFilters {
    f.(docType := Val(EditList(f.docType, t, checked)))
  }

  function EditUploader(f: DocFilters, u: string, checked: bool): DocFilters {
    f.(uploadedBy := Val(EditList(f.uploadedBy, u, checked)))
  }

  function EditDocDateRange(f: DocFilters, field: Bound, date: Option<int>): DocFilters {
    f.(dateRange := WithBound(f.dateRange, field, date))
  }

  /**
   * Checking appends to the edited list, unchecking drops every occurrence, and the
   * other two keys are kept.
   */
  lemma DocEditorsEffect(f: DocFilters, x: string, checked: bool)
    ensures EditType(f, x, checked).uploadedBy == f.uploadedBy && EditType(f, x, checked).dateRange == f.dateRange
    ensures EditUploader(f, x, checked).docType == f.docType && EditUploader(f, x, checked).dateRange == f.dateRange
    ensures checked ==> EditType(f, x, checked).docType == Val(Current(f.docType) + [x])
    ensures !checked ==> x !in EditType(f, x, checked).docType.v && x !in EditUploader(f, x, checked).uploadedBy.v
    ensures EditDocDateRange(f, From, None).docType == f.docType && EditDocDateRange(f, From, None).uploadedBy == f.uploadedBy
  {
  }

  function StrArray(l: seq<string>): (r: seq<JsValue>)
    ensures |r| == |l|
  {
    if l == [] then [] else [JStr(l[0])] + StrArray(l[1..])
  }

  function SlotValue(slot: Slot<seq<string>>): JsValue
    requires !slot.Absent?
  {
    match slot
    case Undefined => JUndefined
    case Null => JNull
    case Val(l) => JArr(StrArray(l))
  }

  /** The panel's list keys as the document store's filter record holds them. */
  function AsRecord(f: DocFilters): map<string, JsValue> {
    var withType := if f.docType.Absent? then map[] else map["type" := SlotValue(f.docType)];
    if f.uploadedBy.Absent? then withType else withType["uploadedBy" := SlotValue(f.uploadedBy)]
  }

  /**
   * Once the type checkboxes have been used, even after unchecking them all, the type
   * key holds an array and the document list shows nothing.
   */
  lemma TypeEditHidesAllDocuments(f: DocFilters, t: string, checked: bool, docs: seq<DocumentContext.Document>, query: string)
    ensures DocumentContext.ApplyFilters(docs, query, AsRecord(EditType(f, t, checked))) == []
  {
    var g := EditType(f, t, checked);
    assert DocumentContext.TypeFilter(AsRecord(g)).JArr?;
    DocumentContext.ArrayTypeFilterMatchesNothing(docs, query, AsRecord(g));
  }
}
