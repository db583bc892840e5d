/**
 * The documents store of the frontend: the document list, the list the filters and search
 * leave, and the selection.
 */
module DocumentContext {
  import opened Wrappers
  import opened Seqs
  import opened Text

  datatype Document = Document(id: string, name: string, docType: string, uploadedAt: string, uploadedBy: string, size: string)

  /** The fixed list `loadDocuments` installs. */
  const MOCK_DOCUMENTS: seq<Document> := [
    Document("1", "Claims_Report.pdf", "pdf", "2025-09-20", "Joseph", "1.2 MB"),
    Document("2", "Underwriting_Data.xlsx", "excel", "2025-09-18", "Admin", "890 KB"),
    Document("3", "Policy_Wording.docx", "word", "2025-09-17", "Analyst", "450 KB")
  ]

  /** `filters.type`. */
  function TypeFilter(filters: map<string, JsValue>): JsValue {
    if "type" in filters then filters["type"] else JUndefined
  }

  /** The name contains the query, ignoring case. */
  predicate NameMatches(doc: Document, query: string) {
    Contains(ToLower(doc.name), ToLower(query))
  }

  /** `doc.type === filter`: only a string equal to the type matches. */
  predicate TypeMatches(doc: Document, filter: JsValue) {
    filter == JStr(doc.docType)
  }

  function NameFilter(query: string): Document -> bool {
    (d: Document) => NameMatches(d, query)
  }

  function TypeFilterFn(filter: JsValue): Document -> bool {
    (d: Document) => TypeMatches(d, filter)
  }

  function IdIsNot(id: string): Document -> bool {
    (d: Document) => d.id != id
  }

  /** The document passes the search (when there is one) and the type filter (when truthy). */
  predicate Passes(doc: Document, query: string, filters: map<string, JsValue>) {
    (query == "" || NameMatches(doc, query)) && (!Truthy(TypeFilter(filters)) || TypeMatches(doc, TypeFilter(filters)))
  }

  /**
   * `applyFilters`: the documents passing the search and the type filter, in their
   * original order.
   */
  function ApplyFilters(docs: seq<Document>, query: string, filters: map<string, JsValue>): (r: seq<Document>)
    ensures IsSubsequence(r, docs)
    ensures forall d | d in r :: Passes(d, query, filters)
    ensures forall d | d in docs && Passes(d, query, filters) :: d in r
  {
    var byName := if query != "" then Filter(docs, NameFilter(query)) else docs;
    SubsequenceReflexive(docs);
    FilterMembership(docs, NameFilter(query));
    var t := TypeFilter(filters);
    if Truthy(t) then
      FilterMembership(byName, TypeFilterFn(t));
      SubsequenceTransitive(Filter(byName, TypeFilterFn(t)), byName, docs);
      Filter(byName, TypeFilterFn(t))
    else byName
  }

  /** With no search and no type filter every document is listed. */
  lemma NoFilterKeepsAll(docs: seq<Document>, filters: map<string, JsValue>)
    requires !Truthy(TypeFilter(filters))
    ensures ApplyFilters(docs, "", filters) == docs
  {
  }

  /** A type filter that is an array, as the documents filter panel produces, matches nothing. */
  lemma ArrayTypeFilterMatchesNothing(docs: seq<Document>, query: string, filters: map<string, JsValue>)
    requires TypeFilter(filters).JArr?
    ensures ApplyFilters(docs, query, filters) == []
  {
  }

  /** Deleting a document before or after filtering gives the same list. */
  lemma DeleteCommutesWithFilters(docs: seq<Document>, query: string, filters: map<string, JsValue>, id: string)
    ensures ApplyFilters(Filter(docs, IdIsNot(id)), query, filters) == Filter(ApplyFilters(docs, query, filters), IdIsNot(id))
  {
    var t := TypeFilter(filters);
    if query != "" {
      FilterCommute(docs, IdIsNot(id), NameFilter(query));
      if Truthy(t) {
        FilterCommute(Filter(docs, NameFilter(query)), IdIsNot(id), TypeFilterFn(t));
      }
    } else if Truthy(t) {
      FilterCommute(docs, IdIsNot(id), TypeFilterFn(t));
    }
  }

  /** The filtered list is what the filters and search leave of the documents. */
  predicate InStep(docs: seq<Document>, filtered: seq<Document>, query: string, filters: map<string, JsValue>) {
    filtered == ApplyFilters(docs, query, filters)
  }

  /** Deleting from a filtered list that is in step with the documents keeps it in step. */
  lemma DeleteKeepsSynced(docs: seq<Document>, filtered: seq<Document>, query: string,
                          filters: map<string, JsValue>, id: string)
    ensures InStep(docs, filtered, query, filters) ==>
      InStep(Filter(docs, IdIsNot(id)), Filter(filtered, IdIsNot(id)), query, filters)
  {
    DeleteCommutesWithFilters(docs, query, filters, id);
  }

  /** The state `DocumentProvider` keeps, updated through its setters. */
  class DocumentStore {
    var documents: seq<Document>
    var filteredDocuments: seq<Document>
    var selectedDocuments: seq<string>
    var isLoading: bool
    var filters: map<string, JsValue>
    var searchQuery: string

    constructor ()
      ensures documents == [] && filteredDocuments == [] && selectedDocuments == []
      ensures !isLoading && filters == map[] && searchQuery == ""
      ensures Synced()
    {
      documents := [];
      filteredDocuments := [];
      selectedDocuments := [];
      isLoading := false;
      filters := map[];
      searchQuery := "";
    }

    /** The filtered list is in step with the documents, filters and search. */
    predicate Synced()
      reads this
    {
      InStep(documents, filteredDocuments, searchQuery, filters)
    }

    /** `loadDocuments` once its timer has fired. */
    method LoadDocuments()
      modifies this
      ensures documents == MOCK_DOCUMENTS && filteredDocuments == MOCK_DOCUMENTS && !isLoading
      ensures selectedDocuments == old(selectedDocuments) && filters == old(filters) && searchQuery == old(searchQuery)
    {
      isLoading := true;
      documents := MOCK_DOCUMENTS;
      filteredDocuments := MOCK_DOCUMENTS;
      isLoading := false;
    }

    method SetFilters(f: map<string, JsValue>)
      modifies this
      ensures filters == f
      ensures documents == old(documents) && filteredDocuments == old(filteredDocuments)
      ensures selectedDocuments == old(selectedDocuments) && isLoading == old(isLoading) && searchQuery == old(searchQuery)
    {
      filters := f;
    }

    method SetSearch(query: string)
      modifies this
      ensures searchQuery == query
      ensures documents == old(documents) && filteredDocuments == old(filteredDocuments)
      ensures selectedDocuments == old(selectedDocuments) && isLoading == old(isLoading) && filters == old(filters)
    {
      searchQuery := query;
    }

    /** The effect that re-runs the filters whenever documents, filters or search change. */
    method Refresh()
      modifies this
      ensures Synced()
      ensures documents == old(documents) && selectedDocuments == old(selectedDocuments)
      ensures isLoading == old(isLoading) && filters == old(filters) && searchQuery == old(searchQuery)
    {
      filteredDocuments := ApplyFilters(documents, searchQuery, filters);
    }

    /** `toggleDocumentSelection`: drop a selected id, append an unselected one. */
    method ToggleDocumentSelection(id: string)
      modifies this
      ensures id in old(selectedDocuments) ==> selectedDocuments == RemoveAll(old(selectedDocuments), id)
      ensures id !in old(selectedDocuments) ==> selectedDocuments == old(selectedDocuments) + [id]
      ensures documents == old(documents) && filteredDocuments == old(filteredDocuments)
      ensures isLoading == old(isLoading) && filters == old(filters) && searchQuery == old(searchQuery)
    {
      selectedDocuments := Toggle(selectedDocuments, id);
    }

    /** `clearFilters`: no filters, no search, every document listed. */
    method ClearFilters()
      modifies this
      ensures filters == map[] && searchQuery == "" && filteredDocuments == documents
      ensures Synced()
      ensures documents == old(documents) && selectedDocuments == old(selectedDocuments) && isLoading == old(isLoading)
    {
      filters := map[];
      searchQuery := "";
      filteredDocuments := documents;
      NoFilterKeepsAll(documents, filters);
    }

    /**
     * `deleteDocument`: the id leaves the documents, the filtered list and the selection;
     * nothing else changes, and a filtered list in step with the documents stays so.
     */
    method DeleteDocument(id: string)
      modifies this
      ensures documents == Filter(old(documents), IdIsNot(id))
      ensures filteredDocuments == Filter(old(filteredDocuments), IdIsNot(id))
      ensures selectedDocuments == RemoveAll(old(selectedDocuments), id)
      ensures unchanged(this`isLoading, this`filters, this`searchQuery)
      ensures old(Synced()) ==> Synced()
    {
      documents := Filter(documents, IdIsNot(id));
      filteredDocuments := Filter(filteredDocuments, IdIsNot(id));
      selectedDocuments := RemoveAll(selectedDocuments, id);
      DeleteKeepsSynced(old(documents), old(filteredDocuments), searchQuery, filters, id);
    }
  }
}
