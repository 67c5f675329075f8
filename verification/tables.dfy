/**
  The canned aggregate tables and chart descriptors the query processor
  attaches for each recognised query type, as typed values together with
  their dictionary encoding.
 */
module Tables {
  import opened Wrappers
  import opened Json

  /** One aggregate record. No variant carries a patient identifier. */
  datatype Row =
      /** `{labelKey: bucket, "count": count, "percentage": percentTenths / 10}` */
    | Share(labelKey: string, bucket: string, count: nat, percentTenths: nat)
    | Risk(level: string, count: nat, conditions: seq<string>)
    | Timing(examinationType: string, avgTime: string, count: nat)

  function RowJson(r: Row): Json {
    match r
    case Share(k, l, c, p) =>
      JObj(map[k := JStr(l), "count" := JInt(c), "percentage" := JFloat(p, -1)])
    case Risk(l, c, cs) =>
      JObj(map["riskLevel" := JStr(l), "count" := JInt(c), "conditions" := Strings(cs)])
    case Timing(e, a, c) =>
      JObj(map["examinationType" := JStr(e), "avgTime" := JStr(a), "count" := JInt(c)])
  }

  function RowsJson(rs: seq<Row>): (j: Json)
    ensures j.JArr? && |j.items| == |rs|
    ensures forall i :: 0 <= i < |rs| ==> j.items[i] == RowJson(rs[i])
  {
    JArr(seq(|rs|, i requires 0 <= i < |rs| => RowJson(rs[i])))
  }

  /** Sum of the `count` fields of a table. */
  function Total(rs: seq<Row>): nat {
    if rs == [] then 0 else rs[0].count + Total(rs[1..])
  }

  datatype ChartKind = Bar | Pie | Line
  datatype Point = Point(name: string, value: int)
  datatype Chart = Chart(kind: ChartKind, title: string, data: seq<Point>)

  function KindName(k: ChartKind): string {
    match k
    case Bar => "bar"
    case Pie => "pie"
    case Line => "line"
  }

  function KindOfName(s: string): (k: Option<ChartKind>)
    ensures k.Some? ==> KindName(k.value) == s
  {
    if s == "bar" then Some(Bar)
    else if s == "pie" then Some(Pie)
    else if s == "line" then Some(Line)
    else None
  }

  function PointJson(p: Point): Json {
    JObj(map["label" := JStr(p.name), "value" := JInt(p.value)])
  }

  function PointsJson(ps: seq<Point>): (js: seq<Json>)
    ensures |js| == |ps|
  {
    if ps == [] then [] else [PointJson(ps[0])] + PointsJson(ps[1..])
  }

  /** `{"type": ..., "title": ..., "data": [...]}` */
  function ChartJson(c: Chart): Json {
    JObj(map["type" := JStr(KindName(c.kind)), "title" := JStr(c.title),
             "data" := JArr(PointsJson(c.data))])
  }

  function ChartsJson(cs: seq<Chart>): (js: seq<Json>)
    ensures |js| == |cs|
  {
    if cs == [] then [] else [ChartJson(cs[0])] + ChartsJson(cs[1..])
  }

  /** Reads a chart point back out of a dictionary value. */
  function PointOf(j: Json): Option<Point> {
    if j.JObj? && "label" in j.fields && "value" in j.fields
       && j.fields["label"].JStr? && j.fields["value"].JInt?
    then Some(Point(j.fields["label"].s, j.fields["value"].i))
    else None
  }

  function PointsOf(js: seq<Json>): (r: Option<seq<Point>>)
    ensures r.Some? ==> |r.value| == |js|
  {
    if js == [] then Some([])
    else match (PointOf(js[0]), PointsOf(js[1..]))
      case (Some(p), Some(ps)) => Some([p] + ps)
      case _ => None
  }

  /** Reads a chart descriptor back out of a dictionary value. */
  function ChartOf(j: Json): Option<Chart> {
    if j.JObj? && "type" in j.fields && "title" in j.fields && "data" in j.fields
       && j.fields["type"].JStr? && j.fields["title"].JStr? && j.fields["data"].JArr?
    then match (KindOfName(j.fields["type"].s), PointsOf(j.fields["data"].items))
      case (Some(k), Some(ps)) => Some(Chart(k, j.fields["title"].s, ps))
      case _ => None
    else None
  }

  function ChartsOf(js: seq<Json>): (r: Option<seq<Chart>>)
    ensures r.Some? ==> |r.value| == |js|
  {
    if js == [] then Some([])
    else match (ChartOf(js[0]), ChartsOf(js[1..]))
      case (Some(c), Some(cs)) => Some([c] + cs)
      case _ => None
  }

  lemma KindRoundTrip(k: ChartKind)
    ensures KindOfName(KindName(k)) == Some(k)
  {
  }

  lemma {:induction false} PointsRoundTrip(ps: seq<Point>)
    ensures PointsOf(PointsJson(ps)) == Some(ps)
  {
    if ps != [] {
      PointsRoundTrip(ps[1..]);
      assert PointsJson(ps)[1..] == PointsJson(ps[1..]);
      assert [ps[0]] + ps[1..] == ps;
    }
  }

  /** Every chart descriptor the processor emits reads back as the chart it encodes. */
  lemma {:induction false} ChartsRoundTrip(cs: seq<Chart>)
    ensures ChartsOf(ChartsJson(cs)) == Some(cs)
  {
    if cs != [] {
      var c := cs[0];
      KindRoundTrip(c.kind);
      PointsRoundTrip(c.data);
      assert ChartOf(ChartJson(c)) == Some(c);
      ChartsRoundTrip(cs[1..]);
      assert ChartsJson(cs)[1..] == ChartsJson(cs[1..]);
      assert [cs[0]] + cs[1..] == cs;
    }
  }

  // ---------------------------------------------------------------------
  // The fixed tables (get_mock_*_results) and charts (get_mock_*_charts).

  const PatientSearchRows: seq<Row> := [
    Share("ageRange", "25-35", 15, 300),
    Share("ageRange", "36-45", 20, 400),
    Share("ageRange", "46-55", 10, 200),
    Share("ageRange", "56-65", 5, 100)
  ]

  const MedicalAnalysisRows: seq<Row> := [
    Share("condition", "High Blood Pressure", 25, 155),
    Share("condition", "Diabetes", 18, 112),
    Share("condition", "Heart Disease", 12, 75),
    Share("condition", "Respiratory Issues", 8, 50)
  ]

  const ComplianceRows: seq<Row> := [
    Share("status", "Completed", 145, 853),
    Share("status", "In Progress", 18, 106),
    Share("status", "Incomplete", 7, 41)
  ]

  const RiskAssessmentRows: seq<Row> := [
    Risk("High", 8, ["Multiple medical alerts", "Working at heights"]),
    Risk("Medium", 22, ["Single medical condition"]),
    Risk("Low", 120, ["No significant risks"])
  ]

  const OperationalRows: seq<Row> := [
    Timing("Pre-Employment", "45 minutes", 85),
    Timing("Periodic", "35 minutes", 62),
    Timing("Exit", "25 minutes", 23)
  ]

  const MedicalCharts: seq<Chart> := [
    Chart(Pie, "Medical Conditions Distribution",
          [Point("High Blood Pressure", 25), Point("Diabetes", 18),
           Point("Heart Disease", 12), Point("Other", 30)])
  ]

  const ComplianceCharts: seq<Chart> := [
    Chart(Bar, "Questionnaire Completion Status",
          [Point("Completed", 145), Point("In Progress", 18), Point("Incomplete", 7)])
  ]

  const OperationalCharts: seq<Chart> := [
    Chart(Line, "Average Examination Time by Type",
          [Point("Pre-Employment", 45), Point("Periodic", 35), Point("Exit", 25)])
  ]

  /** `count / total` as a percentage with one decimal, rounded half up, in tenths. */
  function RoundedShareTenths(count: nat, total: nat): nat
    requires total > 0
  {
    (2000 * count + total) / (2 * total)
  }

  /** A table whose percentages are each row's share of the table's own total. */
  ghost predicate SharesOfTotal(rs: seq<Row>) {
    Total(rs) > 0
    && forall i :: 0 <= i < |rs| ==>
         rs[i].Share? && rs[i].percentTenths == RoundedShareTenths(rs[i].count, Total(rs))
  }

  /**
    The compliance table and its chart describe the same population: one
    bar chart whose labels are the status buckets in table order and whose
    values are their counts, so both total 170.
   */
  lemma ComplianceChartMatchesResults()
    ensures |ComplianceCharts| == 1 && ComplianceCharts[0].kind == Bar
    ensures |ComplianceCharts[0].data| == |ComplianceRows| == 3
    ensures forall i :: 0 <= i < 3 ==>
              ComplianceCharts[0].data[i].name == ComplianceRows[i].bucket
              && ComplianceCharts[0].data[i].value == ComplianceRows[i].count
    ensures [ComplianceRows[0].bucket, ComplianceRows[1].bucket, ComplianceRows[2].bucket]
            == ["Completed", "In Progress", "Incomplete"]
    ensures Total(ComplianceRows) == 170
  {
    assert ComplianceRows[1..][1..][1..] == [];
  }

  /** The patient-search and compliance percentages are shares of their own table's total. */
  lemma PercentagesAreShares()
    ensures Total(PatientSearchRows) == 50 && SharesOfTotal(PatientSearchRows)
    ensures Total(ComplianceRows) == 170 && SharesOfTotal(ComplianceRows)
  {
    assert PatientSearchRows[1..][1..][1..][1..] == [];
    assert ComplianceRows[1..][1..][1..] == [];
  }

  /**
    The medical-analysis percentages are not shares of that table's total
    (63): 25 of 63 is 39.7%, not the 15.5% the table carries.
   */
  lemma MedicalPercentagesAreNotShares()
    ensures Total(MedicalAnalysisRows) == 63
    ensures !SharesOfTotal(MedicalAnalysisRows)
  {
    assert MedicalAnalysisRows[1..][1..][1..][1..] == [];
    assert RoundedShareTenths(25, 63) == 397;
  }
}
