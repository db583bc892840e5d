/**
 * The frontend's submission record, its filter object and its sort option. Dates are
 * milliseconds since the epoch; money amounts are reals.
 *
 * The filter object is a JavaScript object whose keys may be missing or may hold
 * `undefined`, `null` or a value; each key is a `Slot`, since counting the active
 * filters tells those apart.
 */
module SubmissionTypes {
  import opened Wrappers

  datatype SubmissionStatus =
    | PendingReview | UnderAnalysis | PricingReview | PortfolioCheck | AwaitingApproval
    | Approved | Declined | Bound | Expired

  datatype Priority = Low | Medium | High | Urgent

  /** A value the dashboard passes along without inspecting it. */
  datatype Opaque = Opaque(id: nat)

  datatype Cedant = Cedant(id: string, name: string, country: string, relationship: string, contactPerson: string, email: string)
  datatype Insured = Insured(name: string, business: string, country: string, industry: string)
  datatype Broker = Broker(id: string, name: string, contactPerson: string, email: string, market: string)

  datatype RiskDetails = RiskDetails(
    classOfBusiness: string, peril: seq<string>, geography: string, sumInsured: real, currency: string,
    policyFrom: int, policyTo: int)

  datatype FinancialDetails = FinancialDetails(
    grossPremium: real, commission: real, brokerage: real, requestedShare: real, currency: string)

  datatype SubmissionDocument = SubmissionDocument(
    id: string, submissionId: string, filename: string, originalName: string, mimeType: string, size: int,
    uploadDate: int, uploadedBy: string, category: string, status: string, annotations: seq<Opaque>,
    version: int, checksum: string)

  /** The parts of the working sheet that are filled from the submission. */
  datatype WorkingSheet = WorkingSheet(
    id: string, submissionId: string, version: int, lastModified: int, modifiedBy: string,
    insuredName: string, cedantName: string, classOfBusiness: string, country: string, currency: string,
    peril: seq<string>, sumInsured: real, grossPremium: real, numberOfLocations: int)

  datatype Submission = Submission(
    id: string,
    reference: string,
    cedant: Cedant,
    insured: Insured,
    broker: Option<Broker>,
    riskDetails: RiskDetails,
    financialDetails: FinancialDetails,
    status: SubmissionStatus,
    priority: Priority,
    submissionDate: int,
    dueDate: int,
    assignedTo: Option<string>,
    documents: seq<SubmissionDocument>,
    workingSheet: WorkingSheet,
    aiAnalysis: Option<Opaque>,
    decisionHistory: seq<Opaque>,
    tags: seq<string>,
    version: int)

  datatype DateRange = DateRange(from: Slot<int>, to: Slot<int>)
  datatype AmountRange = AmountRange(min: Slot<real>, max: Slot<real>)

  datatype FilterOptions = FilterOptions(
    status: Slot<seq<SubmissionStatus>>,
    priority: Slot<seq<Priority>>,
    classOfBusiness: Slot<seq<string>>,
    cedant: Slot<seq<string>>,
    assignedTo: Slot<seq<string>>,
    dateRange: Slot<DateRange>,
    amountRange: Slot<AmountRange>)

  /** `{}`. */
  const NO_FILTERS: FilterOptions := FilterOptions(Absent, Absent, Absent, Absent, Absent, Absent, Absent)

  datatype Direction = Asc | Desc

  datatype SortOption = SortOption(field: string, direction: Direction, lbl: string)

  function DirectionText(d: Direction): string {
    if d == Asc then "asc" else "desc"
  }
}
