/**
  The bookkeeping of the backend smoke-test runner: the log of pass/fail
  records, its summary counts, the `run_all_tests` loop, and the two tests
  that need no server (the required-field check and the SA ID age check).
  The HTTP tests are inputs: only whether each returned or raised matters.
 */
module Backend {
  import opened Wrappers
  import opened SaId

  /** One entry of `test_results` (message, timestamp and details left out). */
  datatype TestRecord = TestRecord(test: string, success: bool)

  /** How one test call ended. */
  datatype TestRun =
      /** The test logged `record` and returned `record.success`. */
    | Completed(record: TestRecord)
      /** The test raised before logging; the runner logs a failure under the function's name. */
    | Raised(functionName: string)

  datatype Summary = Summary(total: nat, passed: nat, failed: nat)

  /** `sum(1 for result in results if result["success"])` */
  function CountPassed(rs: seq<TestRecord>): (n: nat)
    ensures n <= |rs|
    ensures n == |rs| <==> forall i :: 0 <= i < |rs| ==> rs[i].success
    ensures n == 0 <==> forall i :: 0 <= i < |rs| ==> !rs[i].success
  {
    if rs == [] then 0 else (if rs[0].success then 1 else 0) + CountPassed(rs[1..])
  }

  /** Counting a log split in two is counting each part. */
  lemma {:induction false} CountPassedAppend(a: seq<TestRecord>, b: seq<TestRecord>)
    ensures CountPassed(a + b) == CountPassed(a) + CountPassed(b)
  {
    if a != [] {
      assert (a + b)[1..] == a[1..] + b;
      CountPassedAppend(a[1..], b);
    } else {
      assert a + b == b;
    }
  }

  lemma CountPassedOne(r: TestRecord)
    ensures CountPassed([r]) == if r.success then 1 else 0
  {
    assert [r][1..] == [];
  }

  /** The log of a run is fully passed exactly when every test returned true. */
  lemma CountOfLogged(runs: seq<TestRun>, logged: seq<TestRecord>)
    requires |logged| == |runs|
    requires forall j :: 0 <= j < |runs| ==> logged[j] == Logged(runs[j])
    ensures CountPassed(logged) == |runs| <==> forall j :: 0 <= j < |runs| ==> Passed(runs[j])
  {
    assert forall j :: 0 <= j < |runs| ==> (logged[j].success <==> Passed(runs[j]));
  }

  /** `get_summary` without the formatted success rate. */
  function GetSummary(rs: seq<TestRecord>): (s: Summary)
    ensures s.total == |rs| && s.passed + s.failed == s.total
    ensures s.passed == CountPassed(rs)
    ensures s.failed == 0 <==> forall i :: 0 <= i < |rs| ==> rs[i].success
    ensures s.passed == 0 <==> forall i :: 0 <= i < |rs| ==> !rs[i].success
  {
    var passed := CountPassed(rs);
    Summary(|rs|, passed, |rs| - passed)
  }

  /** The record a test run leaves in the log. */
  function Logged(run: TestRun): (r: TestRecord)
    ensures r.success <==> run.Completed? && run.record.success
  {
    match run
    case Completed(record) => record
    case Raised(name) => TestRecord(name, false)
  }

  /** A test counts towards `passed` when it returned true. */
  predicate Passed(run: TestRun) {
    run.Completed? && run.record.success
  }

  /**
    `run_all_tests`: call each test in order, count those that return true,
    log a failure for each that raises, and report whether all passed.
   */
  method RunAllTests(log: seq<TestRecord>, runs: seq<TestRun>)
    returns (allPassed: bool, passed: nat, log': seq<TestRecord>)
    ensures passed <= |runs|
    ensures allPassed <==> passed == |runs|
    ensures allPassed <==> forall i :: 0 <= i < |runs| ==> Passed(runs[i])
    ensures |log'| == |log| + |runs| && log'[..|log|] == log
    ensures forall i :: 0 <= i < |runs| ==> log'[|log| + i] == Logged(runs[i])
    ensures CountPassed(log') == CountPassed(log) + passed
  {
    passed := 0;
    log' := log;
    ghost var added: seq<TestRecord> := [];
    var i := 0;
    while i < |runs|
      invariant 0 <= i <= |runs|
      invariant log' == log + added && |added| == i
      invariant forall j :: 0 <= j < i ==> added[j] == Logged(runs[j])
      invariant CountPassed(added) == passed
    {
      var record := Logged(runs[i]);
      if Passed(runs[i]) {
        passed := passed + 1;
      }
      CountPassedAppend(added, [record]);
      CountPassedOne(record);
      added := added + [record];
      log' := log' + [record];
      i := i + 1;
    }
    CountPassedAppend(log, added);
    CountOfLogged(runs, added);
    allPassed := passed == |runs|;
  }

  /** On a fresh log, the summary agrees with the runner's own count. */
  lemma SummaryOfFreshRun(runs: seq<TestRun>, log': seq<TestRecord>, passed: nat)
    requires |log'| == |runs|
    requires forall i :: 0 <= i < |runs| ==> log'[i] == Logged(runs[i])
    requires CountPassed(log') == passed
    ensures GetSummary(log') == Summary(|runs|, passed, |runs| - passed)
    ensures passed == |runs| <==> forall i :: 0 <= i < |runs| ==> Passed(runs[i])
  {
  }

  // ---------------------------------------------------------------------
  // The two tests that need no server.

  /** Python `[f for f in required if f not in sample]` */
  function MissingFields(required: seq<string>, sample: map<string, string>): (m: seq<string>)
    ensures |m| <= |required|
  {
    if required == [] then []
    else (if required[0] in sample then [] else [required[0]]) + MissingFields(required[1..], sample)
  }

  /** The missing fields are exactly the required fields the record lacks. */
  lemma {:induction false} MissingFieldsExact(required: seq<string>, sample: map<string, string>)
    ensures forall f :: f in MissingFields(required, sample) ==> f in required && f !in sample
    ensures forall f :: f in required && f !in sample ==> f in MissingFields(required, sample)
    ensures MissingFields(required, sample) == [] <==> forall f :: f in required ==> f in sample
  {
    if required != [] {
      MissingFieldsExact(required[1..], sample);
      assert forall f :: f in required ==> f == required[0] || f in required[1..];
    }
  }

  /** One required field is missing exactly when the record lacks it. */
  lemma MissingFieldsOne(f: string, sample: map<string, string>)
    ensures MissingFields([f], sample) == if f in sample then [] else [f]
  {
    assert [f][1..] == [];
  }

  /** The missing fields of a split field list are those of each part, in order. */
  lemma {:induction false} MissingFieldsAppend(a: seq<string>, b: seq<string>, sample: map<string, string>)
    ensures MissingFields(a + b, sample) == MissingFields(a, sample) + MissingFields(b, sample)
  {
    if a != [] {
      var head := if a[0] in sample then [] else [a[0]];
      assert (a + b)[0] == a[0];
      assert (a + b)[1..] == a[1..] + b;
      MissingFieldsAppend(a[1..], b, sample);
      assert MissingFields(a + b, sample) == head + (MissingFields(a[1..], sample) + MissingFields(b, sample));
    } else {
      assert a + b == b;
    }
  }

  const RequiredFields: seq<string> := [
    "initials", "firstName", "surname", "idNumber", "dateOfBirth",
    "maritalStatus", "gender", "phone", "email", "employerName",
    "examinationType"
  ]

  const SampleData: map<string, string> := map[
    "initials" := "T.P.",
    "firstName" := "Test",
    "surname" := "Patient Branch",
    "idNumber" := TestSaId,
    "dateOfBirth" := "1978-07-21",
    "maritalStatus" := "single",
    "gender" := "male",
    "phone" := "+27123456789",
    "email" := "test@example.com",
    "employerName" := "ABC Mining Corp",
    "position" := "Miner",
    "department" := "Operations",
    "employeeNumber" := "EMP001",
    "examinationType" := "pre_employment",
    "location" := "Johannesburg"
  ]

  /** `test_patient_data_structure` */
  function PatientDataStructureRun(): (run: TestRun)
    ensures run.Completed?
    ensures Passed(run) <==> forall f :: f in RequiredFields ==> f in SampleData
  {
    MissingFieldsExact(RequiredFields, SampleData);
    Completed(TestRecord("Patient Data Structure", MissingFields(RequiredFields, SampleData) == []))
  }

  /** `test_sa_id_validation_utility` on a given day. */
  function SaIdRun(today: Date): (run: TestRun)
    ensures Passed(run) <==> AgeFromId(TestSaId, today) == Some(ExpectedAge)
  {
    match AgeFromId(TestSaId, today)
    case None => Raised("test_sa_id_validation_utility")
    case Some(age) => Completed(TestRecord("SA ID Validation Logic", age == ExpectedAge))
  }

  /** The sample patient record has every required field. */
  lemma PatientDataStructurePasses()
    ensures Passed(PatientDataStructureRun())
  {
    forall f | f in RequiredFields ensures f in SampleData {
    }
  }

  /** The six tests of `run_all_tests`, in its order. */
  function Suite(health: TestRun, database: TestRun, endpoints: TestRun, creation: TestRun, today: Date): (s: seq<TestRun>)
    ensures |s| == 6
    // The four server tests keep their places around the two local ones.
    ensures s[0] == health && s[1] == database && s[2] == endpoints && s[5] == creation
    // The two local tests sit between them: the structure test, then the SA ID test.
    ensures s[3] == PatientDataStructureRun() && s[4] == SaIdRun(today)
  {
    InOrder(health, database, endpoints, PatientDataStructureRun(), SaIdRun(today), creation)
  }

  function InOrder(a: TestRun, b: TestRun, c: TestRun, d: TestRun, e: TestRun, f: TestRun): (s: seq<TestRun>)
    ensures |s| == 6 && s[0] == a && s[1] == b && s[2] == c && s[3] == d && s[4] == e && s[5] == f
  {
    [a, b, c, d, e, f]
  }

  /**
    During 2000-2099 the whole suite passes exactly when the four server
    tests pass and the reference day makes the test ID 46 years old.
   */
  lemma SuitePassesIff(health: TestRun, database: TestRun, endpoints: TestRun, creation: TestRun, today: Date)
    requires 2000 <= today.year < 2100
    ensures var s := Suite(health, database, endpoints, creation, today);
      (forall i :: 0 <= i < |s| ==> Passed(s[i]))
      <==> Passed(health) && Passed(database) && Passed(endpoints) && Passed(creation)
           && DateLe(Date(2024, 7, 21), today) && DateLe(today, Date(2025, 7, 20))
  {
    SuiteNeedsEachTest(health, database, endpoints, creation, today);
    SaIdRunWindow(today);
  }

  /** The SA ID test passes exactly on the days the test ID is 46. */
  lemma SaIdRunWindow(today: Date)
    requires 2000 <= today.year < 2100
    ensures Passed(SaIdRun(today))
            <==> DateLe(Date(2024, 7, 21), today) && DateLe(today, Date(2025, 7, 20))
  {
    TestIdAgeWindow(today);
  }

  /** The fixed data-structure test always passes, so the suite needs the other five. */
  lemma SuiteNeedsEachTest(health: TestRun, database: TestRun, endpoints: TestRun, creation: TestRun, today: Date)
    ensures var s := Suite(health, database, endpoints, creation, today);
      (forall i :: 0 <= i < |s| ==> Passed(s[i]))
      <==> Passed(health) && Passed(database) && Passed(endpoints) && Passed(creation)
           && Passed(SaIdRun(today))
  {
    PatientDataStructurePasses();
    AllOfSix(Suite(health, database, endpoints, creation, today));
  }

  lemma AllOfSix(s: seq<TestRun>)
    requires |s| == 6
    ensures (forall i :: 0 <= i < |s| ==> Passed(s[i]))
            <==> Passed(s[0]) && Passed(s[1]) && Passed(s[2]) && Passed(s[3]) && Passed(s[4]) && Passed(s[5])
  {
  }
}
