/**
  `execute_query`: dispatch on the `queryType` the model supplied, attaching
  the canned table, its length and, for three of the five types, a chart.
 */
module Dispatch {
  import opened Wrappers
  import opened Json
  import opened Tables

  /** The five recognised query types, and a catch-all carrying whatever value was read. */
  datatype QueryType =
    | PatientSearch
    | MedicalAnalysis
    | ComplianceReporting
    | RiskAssessment
    | OperationalInsights
    | Unrecognised(tag: Json)

  function TypeName(t: QueryType): string
    requires !t.Unrecognised?
  {
    match t
    case PatientSearch => "PATIENT_SEARCH"
    case MedicalAnalysis => "MEDICAL_ANALYSIS"
    case ComplianceReporting => "COMPLIANCE_REPORTING"
    case RiskAssessment => "RISK_ASSESSMENT"
    case OperationalInsights => "OPERATIONAL_INSIGHTS"
  }

  const RecognisedTags: set<Json> := {
    JStr("PATIENT_SEARCH"), JStr("MEDICAL_ANALYSIS"), JStr("COMPLIANCE_REPORTING"),
    JStr("RISK_ASSESSMENT"), JStr("OPERATIONAL_INSIGHTS")
  }

  /** `ai_result.get('queryType', 'UNKNOWN')` */
  function TypeTag(d: Dict): Json {
    Get(d, "queryType", JStr("UNKNOWN"))
  }

  /** Which branch of `execute_query` a decoded reply takes. */
  function Classify(d: Dict): (t: QueryType)
    ensures !t.Unrecognised? ==> TypeTag(d) == JStr(TypeName(t))
    ensures t.Unrecognised? ==> t.tag == TypeTag(d) && TypeTag(d) !in RecognisedTags
  {
    var tag := TypeTag(d);
    if tag == JStr("PATIENT_SEARCH") then PatientSearch
    else if tag == JStr("MEDICAL_ANALYSIS") then MedicalAnalysis
    else if tag == JStr("COMPLIANCE_REPORTING") then ComplianceReporting
    else if tag == JStr("RISK_ASSESSMENT") then RiskAssessment
    else if tag == JStr("OPERATIONAL_INSIGHTS") then OperationalInsights
    else Unrecognised(tag)
  }

  /** The table a recognised type installs as `results`. */
  function ResultTable(t: QueryType): seq<Row>
    requires !t.Unrecognised?
  {
    match t
    case PatientSearch => PatientSearchRows
    case MedicalAnalysis => MedicalAnalysisRows
    case ComplianceReporting => ComplianceRows
    case RiskAssessment => RiskAssessmentRows
    case OperationalInsights => OperationalRows
  }

  /** The charts a type installs as `charts`, if it installs any. */
  function ChartTable(t: QueryType): Option<seq<Chart>> {
    match t
    case MedicalAnalysis => Some(MedicalCharts)
    case ComplianceReporting => Some(ComplianceCharts)
    case OperationalInsights => Some(OperationalCharts)
    case _ => None
  }

  /** The only keys `execute_query` ever writes. */
  const WrittenKeys: set<string> := {"results", "resultCount", "charts"}

  /** `resultCount` is bound to the length of the `results` list. */
  predicate CountMatches(d: Dict) {
    "results" in d && d["results"].JArr?
    && Has(d, "resultCount", JInt(|d["results"].items|))
  }

  /** `d['results'] = rows; d['resultCount'] = len(d['results'])` */
  function WithResults(d: Dict, rows: seq<Row>): Dict {
    var results := RowsJson(rows);
    d["results" := results]["resultCount" := JInt(|results.items|)]
  }

  function WithCharts(d: Dict, charts: seq<Chart>): Dict {
    d["charts" := JArr(ChartsJson(charts))]
  }

  function ExecuteQuery(d: Dict): (r: Dict)
    // Unrecognised (or missing) type: the model's dict is returned untouched.
    ensures Classify(d).Unrecognised? ==> r == d
    // Recognised type: the fixed table, with a count that matches it.
    ensures !Classify(d).Unrecognised? ==>
              Has(r, "results", RowsJson(ResultTable(Classify(d)))) && CountMatches(r)
    // Charts only for the three charting types; otherwise `charts` is left as it was.
    ensures ChartTable(Classify(d)).Some? ==>
              Has(r, "charts", JArr(ChartsJson(ChartTable(Classify(d)).value)))
    ensures ChartTable(Classify(d)).None? ==> SameAt(d, r, "charts")
    // Nothing else changes.
    ensures forall k :: k !in WrittenKeys ==> SameAt(d, r, k)
  {
    match Classify(d)
    case PatientSearch => WithResults(d, PatientSearchRows)
    case MedicalAnalysis => WithCharts(WithResults(d, MedicalAnalysisRows), MedicalCharts)
    case ComplianceReporting => WithCharts(WithResults(d, ComplianceRows), ComplianceCharts)
    case RiskAssessment => WithResults(d, RiskAssessmentRows)
    case OperationalInsights => WithCharts(WithResults(d, OperationalRows), OperationalCharts)
    case Unrecognised(_) => d
  }

  /** A type name written by the model is read back as that type. */
  lemma ClassifyRoundTrip(t: QueryType, d: Dict)
    requires !t.Unrecognised?
    requires Has(d, "queryType", JStr(TypeName(t)))
    ensures Classify(d) == t
  {
  }

  /** A reply without `queryType` is handled as the unrecognised type `UNKNOWN`. */
  lemma MissingTypeIsUnknown(d: Dict)
    requires "queryType" !in d
    ensures Classify(d) == Unrecognised(JStr("UNKNOWN"))
    ensures ExecuteQuery(d) == d
  {
  }

  /** Dispatching again changes nothing: the type is not among the written keys. */
  lemma ExecuteQueryIdempotent(d: Dict)
    ensures Classify(ExecuteQuery(d)) == Classify(d)
    ensures ExecuteQuery(ExecuteQuery(d)) == ExecuteQuery(d)
  {
    var r := ExecuteQuery(d);
    assert SameAt(d, r, "queryType");
    assert TypeTag(r) == TypeTag(d);
  }

  /** Compliance reporting: one bar chart over the three status buckets, agreeing with the results. */
  lemma ComplianceEnvelope(d: Dict)
    requires Classify(d) == ComplianceReporting
    ensures var r := ExecuteQuery(d);
      && Has(r, "resultCount", JInt(3))
      && "charts" in r && r["charts"].JArr?
      && ChartsOf(r["charts"].items) == Some(ComplianceCharts)
      && |ComplianceCharts| == 1 && ComplianceCharts[0].kind == Bar
      && forall i :: 0 <= i < 3 ==>
           ComplianceCharts[0].data[i].name == ComplianceRows[i].bucket
           && ComplianceCharts[0].data[i].value == ComplianceRows[i].count
  {
    ChartsRoundTrip(ComplianceCharts);
    ComplianceChartMatchesResults();
  }

  /** Keys a result record would need to identify a patient. */
  const IdentifierKeys: set<string> := {
    "firstName", "surname", "initials", "idNumber", "dateOfBirth", "phone", "email"
  }

  /** The keys of an encoded record. */
  lemma RowKeys(r: Row)
    ensures RowJson(r).JObj?
    ensures r.Share? ==> RowJson(r).fields.Keys == {r.labelKey, "count", "percentage"}
    ensures r.Risk? ==> RowJson(r).fields.Keys == {"riskLevel", "count", "conditions"}
    ensures r.Timing? ==> RowJson(r).fields.Keys == {"examinationType", "avgTime", "count"}
  {
  }

  ghost predicate Anonymous(rows: seq<Row>) {
    forall i :: 0 <= i < |rows| ==> RowJson(rows[i]).fields.Keys !! IdentifierKeys
  }

  lemma TablesAreAnonymous(t: QueryType)
    requires !t.Unrecognised?
    ensures Anonymous(ResultTable(t))
  {
    var rows := ResultTable(t);
    forall i | 0 <= i < |rows|
      ensures RowJson(rows[i]).fields.Keys !! IdentifierKeys
    {
      RowKeys(rows[i]);
    }
  }

  /** Every installed record is a dict with no identifier key. */
  lemma InstalledRowsCarryNoIdentifiers(d: Dict)
    requires !Classify(d).Unrecognised?
    ensures var r := ExecuteQuery(d);
      "results" in r && r["results"].JArr?
      && forall i :: 0 <= i < |r["results"].items| ==>
           r["results"].items[i].JObj?
           && r["results"].items[i].fields.Keys !! IdentifierKeys
  {
    var t := Classify(d);
    TablesAreAnonymous(t);
    var rows := ResultTable(t);
    forall i | 0 <= i < |rows| ensures RowJson(rows[i]).JObj? {
      RowKeys(rows[i]);
    }
  }

  /**
    Nothing is filtered on the pass-through path: an unrecognised type keeps
    the model's own records, identifiers included, and its own count even
    when that count disagrees with the records.
   */
  lemma PassThroughKeepsModelRecords()
    ensures var d := map["queryType" := JStr("GENERAL"),
                         "results" := JArr([JObj(map["idNumber" := JStr("7807215422081")])]),
                         "resultCount" := JInt(5)];
      ExecuteQuery(d) == d && !CountMatches(ExecuteQuery(d))
  {
  }
}
