/**
 * `serializeSubmission`: turns a database submission row, with its related rows, into the
 * dashboard's `Submission`. Missing relations and columns fall back to fixed defaults.
 */
module Transformers {
  import opened Wrappers
  import opened SubmissionTypes

  datatype PartyRow = PartyRow(id: string, name: string, country: string)
  datatype RefRow = RefRow(id: string, name: string)
  datatype RiskRow = RiskRow(classOfBusiness: string, perils: seq<string>, sumInsured: real, currency: string)
  datatype FinancialRow = FinancialRow(grossPremium: real, currency: string)

  /** A document row; `None` is a column holding null. */
  datatype DocumentRow = DocumentRow(
    id: string, filename: string, originalName: string, mimeType: string, size: int, uploadDate: int,
    uploadedById: Option<string>, category: string, status: string, annotations: Option<seq<Opaque>>,
    version: int, checksum: Option<string>)

  datatype TagRow = TagRow(value: string)

  datatype SubmissionRow = SubmissionRow(
    id: string, reference: string, status: SubmissionStatus, priority: Priority,
    submissionDate: int, dueDate: Option<int>, updatedAt: int,
    cedant: PartyRow, insured: PartyRow, broker: Option<RefRow>, assignedTo: Option<RefRow>,
    riskDetails: Option<RiskRow>, financialDetails: Option<FinancialRow>,
    documents: seq<DocumentRow>, tags: seq<TagRow>)

  function ClassOf(row: SubmissionRow): string {
    if row.riskDetails.Some? then row.riskDetails.value.classOfBusiness else "Unknown"
  }

  function PerilsOf(row: SubmissionRow): seq<string> {
    if row.riskDetails.Some? then row.riskDetails.value.perils else []
  }

  function SumInsuredOf(row: SubmissionRow): real {
    if row.riskDetails.Some? then row.riskDetails.value.sumInsured else 0.0
  }

  function RiskCurrencyOf(row: SubmissionRow): string {
    if row.riskDetails.Some? then row.riskDetails.value.currency else "USD"
  }

  function GrossPremiumOf(row: SubmissionRow): real {
    if row.financialDetails.Some? then row.financialDetails.value.grossPremium else 0.0
  }

  /** `dueDate ?? submissionDate`. */
  function DueOf(row: SubmissionRow): int {
    if row.dueDate.Some? then row.dueDate.value else row.submissionDate
  }

  function SerializeDocument(submissionId: string, doc: DocumentRow): (d: SubmissionDocument)
    ensures d.id == doc.id && d.submissionId == submissionId
  {
    SubmissionDocument(
      doc.id, submissionId, doc.filename, doc.originalName, doc.mimeType, doc.size, doc.uploadDate,
      doc.uploadedById.GetOr(""), doc.category, doc.status, doc.annotations.GetOr([]), doc.version,
      doc.checksum.GetOr(""))
  }

  function SerializeDocuments(submissionId: string, docs: seq<DocumentRow>): (r: seq<SubmissionDocument>)
    ensures |r| == |docs|
    ensures forall i | 0 <= i < |docs| :: r[i] == SerializeDocument(submissionId, docs[i])
  {
    if docs == [] then [] else [SerializeDocument(submissionId, docs[0])] + SerializeDocuments(submissionId, docs[1..])
  }

  function TagValues(tags: seq<TagRow>): (r: seq<string>)
    ensures |r| == |tags|
    ensures forall i | 0 <= i < |tags| :: r[i] == tags[i].value
  {
    if tags == [] then [] else [tags[0].value] + TagValues(tags[1..])
  }

  /**
   * `serializeSubmission`. The working sheet repeats the risk and premium figures of the
   * submission, and every document and the sheet point back at the submission's id.
   */
  function Serialize(row: SubmissionRow): (s: Submission)
    ensures s.id == row.id && s.workingSheet.submissionId == s.id
    ensures forall d | d in s.documents :: d.submissionId == s.id
    ensures s.workingSheet.classOfBusiness == s.riskDetails.classOfBusiness
    ensures s.workingSheet.peril == s.riskDetails.peril && s.workingSheet.sumInsured == s.riskDetails.sumInsured
    ensures s.workingSheet.currency == s.riskDetails.currency
    ensures s.workingSheet.grossPremium == s.financialDetails.grossPremium
    ensures s.workingSheet.insuredName == s.insured.name && s.workingSheet.cedantName == s.cedant.name
    ensures s.workingSheet.country == s.cedant.country
    ensures s.dueDate == s.riskDetails.policyTo && s.riskDetails.policyFrom == s.submissionDate
  {
    var cedant := Cedant(row.cedant.id, row.cedant.name, row.cedant.country, "treaty_partner", "", "");
    var insured := Insured(row.insured.name, "", row.insured.country, "");
    var broker := if row.broker.Some? then Some(Broker(row.broker.value.id, row.broker.value.name, "", "", "")) else None;
    var risk := RiskDetails(ClassOf(row), PerilsOf(row), "", SumInsuredOf(row), RiskCurrencyOf(row), row.submissionDate, DueOf(row));
    var financial := FinancialDetails(GrossPremiumOf(row), 0.0, 0.0, 0.0,
      if row.financialDetails.Some? then row.financialDetails.value.currency else "USD");
    var sheet := WorkingSheet(
      "", row.id, 1, row.updatedAt, if row.assignedTo.Some? then row.assignedTo.value.id else "",
      row.insured.name, row.cedant.name, ClassOf(row), row.cedant.country, RiskCurrencyOf(row),
      PerilsOf(row), SumInsuredOf(row), GrossPremiumOf(row), 1);
    var documents := SerializeDocuments(row.id, row.documents);
    Submission(
      row.id, row.reference, cedant, insured, broker, risk, financial, row.status, row.priority,
      row.submissionDate, DueOf(row),
      if row.assignedTo.Some? then Some(row.assignedTo.value.name) else None,
      documents, sheet, None, [], TagValues(row.tags), 1)
  }

  /** Without risk details the class is "Unknown", no perils, no sum insured, in US dollars. */
  lemma MissingRiskDefaults(row: SubmissionRow)
    requires row.riskDetails.None?
    ensures var s := Serialize(row);
      && s.riskDetails.classOfBusiness == "Unknown" && s.riskDetails.peril == []
      && s.riskDetails.sumInsured == 0.0 && s.riskDetails.currency == "USD"
  {
  }

  /** With risk details, their values are carried over unchanged. */
  lemma PresentRiskCarried(row: SubmissionRow)
    requires row.riskDetails.Some?
    ensures var s := Serialize(row); var r := row.riskDetails.value;
      && s.riskDetails.classOfBusiness == r.classOfBusiness && s.riskDetails.peril == r.perils
      && s.riskDetails.sumInsured == r.sumInsured && s.riskDetails.currency == r.currency
  {
  }

  /** Without a due date, the submission date stands in for it. */
  lemma DueDateFallback(row: SubmissionRow)
    ensures row.dueDate.None? ==> Serialize(row).dueDate == row.submissionDate
    ensures row.dueDate.Some? ==> Serialize(row).dueDate == row.dueDate.value
  {
  }

  /** The broker is present exactly when the row has one; the assignee is reduced to a name. */
  lemma RelationsCarried(row: SubmissionRow)
    ensures Serialize(row).broker.Some? <==> row.broker.Some?
    ensures row.broker.Some? ==> Serialize(row).broker.value.id == row.broker.value.id
    ensures Serialize(row).assignedTo == (if row.assignedTo.Some? then Some(row.assignedTo.value.name) else None)
  {
  }

  /** One document per row document, in order, with missing uploader and checksum as "". */
  lemma DocumentsInOrder(row: SubmissionRow)
    ensures var s := Serialize(row);
      && |s.documents| == |row.documents|
      && forall i | 0 <= i < |row.documents| ::
           && s.documents[i].id == row.documents[i].id
           && s.documents[i].uploadedBy == row.documents[i].uploadedById.GetOr("")
           && s.documents[i].checksum == row.documents[i].checksum.GetOr("")
  {
  }

  /** The tags are the tag values in order; the figures the row does not hold are fixed. */
  lemma FixedFields(row: SubmissionRow)
    ensures var s := Serialize(row);
      && s.tags == TagValues(row.tags) && |s.tags| == |row.tags|
      && s.financialDetails.commission == 0.0 && s.financialDetails.brokerage == 0.0
      && s.financialDetails.requestedShare == 0.0
      && s.aiAnalysis.None? && s.version == 1 && s.workingSheet.version == 1
      && s.decisionHistory == []
  {
  }
}
