/**
 * The submissions API route: how a database row becomes the JSON record the list page
 * reads, and how a GET request chooses between one submission and a page of them.
 * The database queries themselves are parameters: the route only reads what they return.
 */
module SubmissionsRoute {
  import opened Wrappers
  import opened Text
  import Stats

  /** A nullable decimal column: null, missing, a plain number, or a `Prisma.Decimal`. */
  datatype DecimalColumn = DNull | DUndefined | DNumber(n: real) | DDecimal(d: real)

  /** `decimalToNumber`: falsy values (null, missing, the number 0) give 0. */
  function DecimalToNumber(v: DecimalColumn): (r: real)
    ensures v.DNull? || v.DUndefined? ==> r == 0.0
    ensures v.DNumber? ==> r == v.n
    ensures v.DDecimal? ==> r == v.d
  {
    match v
    case DNull => 0.0
    case DUndefined => 0.0
    case DNumber(n) => n  // a falsy 0 also gives 0
    case DDecimal(d) => d
  }

  datatype PartyRow = PartyRow(id: string, name: string, country: Option<string>)
  datatype RefRow = RefRow(id: string, name: string)
  datatype RiskRow = RiskRow(classOfBusiness: string, perils: Option<seq<string>>, sumInsured: DecimalColumn, currency: Option<string>)
  datatype FinancialRow = FinancialRow(
    grossPremium: DecimalColumn, commission: DecimalColumn, brokerage: DecimalColumn,
    requestedShare: DecimalColumn, currency: Option<string>)

  /** A submission row with its relations; dates are milliseconds since the epoch. */
  datatype Row = Row(
    id: string, reference: string, status: string, priority: string, submissionDate: int,
    dueDate: Option<int>, createdAt: int, cedant: PartyRow, insured: PartyRow,
    broker: Option<RefRow>, assignedTo: Option<RefRow>, riskDetails: Option<RiskRow>,
    financialDetails: Option<FinancialRow>)

  datatype PartyDto = PartyDto(id: string, name: string, country: string)
  datatype RefDto = RefDto(id: string, name: string)
  datatype RiskDto = RiskDto(classOfBusiness: string, perils: seq<string>, sumInsured: real, currency: string)
  datatype FinancialDto = FinancialDto(grossPremium: real, commission: real, brokerage: real, requestedShare: real, currency: string)

  /**
   * `SubmissionDTO`. Dates hold the instant that `toISOString` renders; `None` is JSON null.
   */
  datatype SubmissionDto = SubmissionDto(
    id: string, reference: string, status: string, priority: string, submissionDate: int,
    dueDate: Option<int>, cedant: PartyDto, broker: Option<RefDto>, insured: PartyDto,
    assignedTo: Option<RefDto>, riskDetails: Option<RiskDto>, financialDetails: Option<FinancialDto>)

  function Party(p: PartyRow): (d: PartyDto)
    ensures d.id == p.id && d.name == p.name
    ensures d.country == if p.country.Some? then p.country.value else ""
  {
    PartyDto(p.id, p.name, p.country.GetOr(""))
  }

  function Ref(r: Option<RefRow>): (d: Option<RefDto>)
    ensures d.Some? <==> r.Some?
    ensures r.Some? ==> d.value.id == r.value.id && d.value.name == r.value.name
  {
    if r.Some? then Some(RefDto(r.value.id, r.value.name)) else None
  }

  function Risk(r: RiskRow): (d: RiskDto)
    ensures d.classOfBusiness == r.classOfBusiness
    ensures d.perils == if r.perils.Some? then r.perils.value else []
    ensures d.currency == if r.currency.Some? then r.currency.value else "USD"
  {
    RiskDto(r.classOfBusiness, r.perils.GetOr([]), DecimalToNumber(r.sumInsured), r.currency.GetOr("USD"))
  }

  function Financial(f: FinancialRow): (d: FinancialDto)
    ensures d.currency == if f.currency.Some? then f.currency.value else "USD"
    ensures f.commission.DNull? ==> d.commission == 0.0
  {
    FinancialDto(
      DecimalToNumber(f.grossPremium), DecimalToNumber(f.commission), DecimalToNumber(f.brokerage),
      DecimalToNumber(f.requestedShare), f.currency.GetOr("USD"))
  }

  /** `transformSubmission`. */
  function Transform(row: Row): (d: SubmissionDto)
    ensures d.id == row.id && d.reference == row.reference && d.status == row.status
    ensures d.dueDate == row.dueDate
    ensures d.broker.Some? <==> row.broker.Some?
    ensures d.assignedTo.Some? <==> row.assignedTo.Some?
    ensures d.riskDetails.Some? <==> row.riskDetails.Some?
    ensures d.financialDetails.Some? <==> row.financialDetails.Some?
  {
    SubmissionDto(
      row.id, row.reference, row.status, row.priority, row.submissionDate, row.dueDate,
      Party(row.cedant), Ref(row.broker), Party(row.insured), Ref(row.assignedTo),
      if row.riskDetails.Some? then Some(Risk(row.riskDetails.value)) else None,
      if row.financialDetails.Some? then Some(Financial(row.financialDetails.value)) else None)
  }

  /** Optional relations are JSON null when the row lacks them, with the defaults inside otherwise. */
  lemma TransformDefaults(row: Row)
    ensures var d := Transform(row);
      && (row.cedant.country.None? ==> d.cedant.country == "")
      && (row.insured.country.None? ==> d.insured.country == "")
      && (row.riskDetails.Some? && row.riskDetails.value.perils.None? ==> d.riskDetails.value.perils == [])
      && (row.riskDetails.Some? && row.riskDetails.value.currency.None? ==> d.riskDetails.value.currency == "USD")
      && (row.financialDetails.Some? && row.financialDetails.value.currency.None? ==> d.financialDetails.value.currency == "USD")
  {
  }

  // ---- Reading the `limit` parameter

  /** JavaScript `Number(s)` over the forms the model reads; `None` is NaN. */
  function ParseNumber(s: string): (r: Option<int>)
    ensures Strip(s, Whitespace) == "" ==> r == Some(0)
  {
    ParseTrimmed(Strip(s, Whitespace))
  }

  /** `Number` after surrounding whitespace is removed: "" is 0, else a signed decimal. */
  function ParseTrimmed(t: string): Option<int> {
    if t == "" then Some(0)
    else if t[0] == '-' && |t| > 1 && AllDigits(t[1..]) then Some(0 - DecimalValue(t[1..]) as int)
    else if t[0] == '+' && |t| > 1 && AllDigits(t[1..]) then Some(DecimalValue(t[1..]))
    else if AllDigits(t) then Some(DecimalValue(t))
    else None
  }

  lemma StripKeepsDigits(s: string)
    requires s != [] && (AllDigits(s) || (s[0] == '-' && AllDigits(s[1..])))
    ensures Strip(s, Whitespace) == s
  {
    assert s[0] !in Whitespace && s[|s| - 1] !in Whitespace;
    assert StripLeft(s, Whitespace) == s;
  }

  lemma ParseDigits(s: string)
    requires s != [] && AllDigits(s)
    ensures ParseNumber(s) == Some(DecimalValue(s))
  {
    StripKeepsDigits(s);
  }

  lemma ParseNegative(d: string)
    requires d != [] && AllDigits(d)
    ensures ParseNumber("-" + d) == Some(0 - DecimalValue(d) as int)
  {
    var s := "-" + d;
    assert s[1..] == d;
    StripKeepsDigits(s);
    ParseTrimmedNegative(d);
  }

  lemma ParseTrimmedNegative(d: string)
    requires d != [] && AllDigits(d)
    ensures ParseTrimmed("-" + d) == Some(0 - DecimalValue(d) as int)
  {
    assert ("-" + d)[1..] == d;
  }

  /** Reading back the decimal rendering of a whole number gives that number. */
  lemma ParseRendered(n: int)
    ensures ParseNumber(IntToString(n)) == Some(n)
  {
    if n < 0 {
      ParseRenderedNegative(n);
    } else {
      DecimalRoundTrip(n);
      ParseDigits(NatToString(n));
    }
  }

  lemma ParseRenderedNegative(n: int)
    requires n < 0
    ensures ParseNumber("-" + NatToString(-n)) == Some(n)
  {
    DecimalRoundTrip(-n);
    ParseNegative(NatToString(-n));
  }

  /** What the route asks of the database. */
  datatype Query = FindUnique(id: string) | FindMany(take: Option<int>)

  const DEFAULT_LIMIT := "50"

  lemma DefaultLimitIsFifty(s: string)
    requires s == DEFAULT_LIMIT
    ensures ParseNumber(s) == Some(50)
  {
    ParseRendered(50);
    assert NatToString(5) == "5";
    assert IntToString(50) == NatToString(5) + "0";
    assert IntToString(50) == s;
  }

  /**
   * The query a GET makes: a non-empty `id` looks up one submission; otherwise a page in
   * descending submission-date order, of `Number(limit ?? '50')` rows, or all rows when
   * that is NaN.
   */
  function Plan(params: map<string, string>): (q: Query)
    ensures q.FindUnique? <==> "id" in params && params["id"] != ""
    ensures q.FindMany? && "limit" !in params ==> q.take == Some(50)
    ensures q.FindMany? && "limit" in params ==> q.take == ParseNumber(params["limit"])
  {
    var limit := ParseNumber(if "limit" in params then params["limit"] else DEFAULT_LIMIT);
    if "id" in params && params["id"] != "" then FindUnique(params["id"])
    else
      DefaultLimitIsFifty(DEFAULT_LIMIT);
      FindMany(limit)
  }

  /** An empty `limit` is the number 0, so the page is empty rather than unlimited. */
  lemma EmptyLimitIsZero(params: map<string, string>)
    requires "id" !in params && "limit" in params && params["limit"] == ""
    ensures Plan(params) == FindMany(Some(0))
  {
  }

  /** A `limit` starting with a letter is NaN, which lifts the limit altogether. */
  lemma NonNumericLimitIsUnbounded(params: map<string, string>)
    requires "id" !in params && "limit" in params
    requires var s := params["limit"]; s != [] && ('a' <= s[0] <= 'z' || 'A' <= s[0] <= 'Z')
    ensures Plan(params) == FindMany(None)
  {
    var s := params["limit"];
    var left := StripLeft(s, Whitespace);
    assert left == s;
    var t := StripRight(left, Whitespace);
    assert t != [] && t[0] == s[0];
  }

  /** An empty `id` is falsy: the request lists submissions instead of looking one up. */
  lemma EmptyIdLists(params: map<string, string>)
    requires "id" in params && params["id"] == ""
    ensures Plan(params).FindMany?
  {
  }

  datatype Response =
    | One(submission: SubmissionDto)
    | Page(submissions: seq<SubmissionDto>, stats: Stats.SubmissionStats)
    | Failed(status: int, message: string)

  function StatsInputs(rows: seq<Row>): (r: seq<Stats.StatsInput>)
    ensures |r| == |rows|
    ensures forall i | 0 <= i < |rows| :: r[i] == Stats.StatsInput(rows[i].status, rows[i].createdAt)
  {
    if rows == [] then [] else [Stats.StatsInput(rows[0].status, rows[0].createdAt)] + StatsInputs(rows[1..])
  }

  function TransformAll(rows: seq<Row>): (r: seq<SubmissionDto>)
    ensures |r| == |rows|
    ensures forall i | 0 <= i < |rows| :: r[i] == Transform(rows[i])
  {
    if rows == [] then [] else [Transform(rows[0])] + TransformAll(rows[1..])
  }

  /**
   * `GET`, given what the database returned for the planned query: a lookup answers with
   * the row or 404, a page with the transformed rows and their counters, and any database
   * failure with 500.
   */
  function Get(params: map<string, string>, found: Result<Option<Row>>, listed: Result<seq<Row>>, oneWeekAgo: int): (r: Response)
    ensures Plan(params).FindUnique? && found.Success? && found.value.None? ==> r == Failed(404, "Submission not found")
    ensures Plan(params).FindUnique? && found.Success? && found.value.Some? ==> r == One(Transform(found.value.value))
    ensures Plan(params).FindMany? && listed.Success? ==>
      && r.Page? && |r.submissions| == |listed.value| && r.stats.total == |listed.value|
      && (forall i | 0 <= i < |listed.value| :: r.submissions[i] == Transform(listed.value[i]))
      && r.stats == Stats.Aggregate(StatsInputs(listed.value), oneWeekAgo)
    ensures r.Failed? && r.status == 500 <==>
      (if Plan(params).FindUnique? then found.Failure? else listed.Failure?)
  {
    match Plan(params)
    case FindUnique(_) =>
      if found.Failure? then Failed(500, "Failed to load submissions")
      else if found.value.None? then Failed(404, "Submission not found")
      else One(Transform(found.value.value))
    case FindMany(_) =>
      if listed.Failure? then Failed(500, "Failed to load submissions")
      else Page(TransformAll(listed.value), Stats.Aggregate(StatsInputs(listed.value), oneWeekAgo))
  }
}
