# SurgiScan query processor and backend smoke-test arithmetic, in Dafny

This project models the decision logic of two parts of the SurgiScan EHR
repository:

- **The natural-language query processor** (`server/services/nlp_query_processor.py`).
  `process_query` takes a request and an API key. It asks a language model to
  turn the question into a structured answer, decodes the reply as JSON, and
  returns a result envelope. The envelope is a Python dict, modelled as
  `map<string, Json>`. The model covers:
  - the branch on a missing key (`create_mock_response`);
  - the branch on a reply that is not JSON (`parse_natural_response`), with
    its 200-character summary truncation;
  - the branch on a decoded dict, which goes through `execute_query`. That
    function dispatches on `queryType` and attaches fixed aggregate tables
    and charts;
  - the outer `except` handler.

  The model call and `json.loads` are inputs: a `Reply` is either
  `ModelRaised(message)` or `ModelReplied(text, decoded)`, where `decoded`
  is `None` when decoding raised `JSONDecodeError`.
- **The backend smoke-test runner** (`backend_test.py`). This covers the
  South African ID rule that slices out the birth date, picks the century
  by a pivot at 50, and counts completed years up to a reference day. The
  reference day is a parameter. It also covers the required-field check of
  the sample patient record, the pass/fail tally of `run_all_tests`, and
  `get_summary`.

Files:
- `wrappers.dfy`: the optional value.
- `json.dfy`: Python values and dicts.
- `tables.dfy`: the canned tables and charts, the chart encoding and its
  decoder.
- `dispatch.dfy`: `execute_query`.
- `envelopes.dfy`: the three envelopes the processor builds itself.
- `processor.dfy`: `process_query`.
- `said.dfy`: the ID and age arithmetic.
- `backend.dfy`: the test log, the summary and the runner.

Some safeguards a reader might expect are not in the code, and the model
follows the code:
- There is no safety or role pre-check. The role is only written into the
  prompt.
- Result records are not filtered for identifiers.
- An unrecognised query type returns the model's dict unchanged. Nothing
  sets `results` to `[]` or `resultCount` to 0.
- `resultCount == len(results)` is not kept on every path. The exception
  envelope has neither key, and a passed-through dict keeps whatever count
  the model wrote.
- "`error` present iff `success` is false" holds for the envelopes the
  processor builds (`BuiltEnvelopesKeepErrorIffFailure`). It does not hold
  for a decoded dict, which the code returns as the model wrote it.

## Model

| member | source | states |
|---|---|---|
| `Dispatch.Classify` | server/services/nlp_query_processor.py:151-176 | A missing `queryType` reads as `'UNKNOWN'`. The type is one of the five recognised ones exactly when the value read is that type's name. Otherwise it is the catch-all, carrying the value read. |
| `Dispatch.ExecuteQuery` | server/services/nlp_query_processor.py:147-177 | An unrecognised type returns the dict untouched. A recognised type installs its fixed table, with a `resultCount` equal to the length of `results`. `charts` is set only for the medical, compliance and operational types, and is left as it was for patient search and risk assessment. No key other than `results`, `resultCount` and `charts` changes. |
| `Dispatch.ClassifyRoundTrip` | server/services/nlp_query_processor.py:154-172 | A dict whose `queryType` is a recognised type's name is dispatched to that type. |
| `Dispatch.MissingTypeIsUnknown` | server/services/nlp_query_processor.py:151-177 | A dict without `queryType` is treated as `'UNKNOWN'` and returned unchanged. |
| `Dispatch.ExecuteQueryIdempotent` | server/services/nlp_query_processor.py:147-177 | Dispatch does not change the query type, and dispatching twice equals dispatching once. |
| `Dispatch.ComplianceEnvelope` | server/services/nlp_query_processor.py:163-166 | After compliance dispatch, `resultCount` is 3 and `charts` decodes to exactly one bar chart. Its labels are the result statuses in order and its values are their counts. |
| `Dispatch.InstalledRowsCarryNoIdentifiers` | server/services/nlp_query_processor.py:184-224 | Every record a recognised type installs is a dict with none of the patient-identifier keys (names, ID number, date of birth, contact details). |
| `Dispatch.PassThroughKeepsModelRecords` | server/services/nlp_query_processor.py:172-177 | An unrecognised type keeps the model's own records, including an `idNumber`, and a `resultCount` that disagrees with them. |
| `Dispatch.TablesAreAnonymous` | server/services/nlp_query_processor.py:184-224 | No fixed table has an identifier key in any record. |
| `Dispatch.RowKeys` | server/services/nlp_query_processor.py:184-224 | The keys of each kind of aggregate record: bucket label, `count` and `percentage`; `riskLevel`, `count` and `conditions`; or `examinationType`, `avgTime` and `count`. |
| `Tables.ChartsRoundTrip` | server/services/nlp_query_processor.py:226-267 | Every list of chart descriptors in the emitted `type`/`title`/`data` shape decodes back to the charts it encodes. |
| `Tables.PointsRoundTrip` | server/services/nlp_query_processor.py:232-237 | A list of `label`/`value` points decodes back to the points it encodes. |
| `Tables.ComplianceChartMatchesResults` | server/services/nlp_query_processor.py:202-253 | The compliance chart is one bar chart labelled `Completed`, `In Progress`, `Incomplete`. Its values equal the compliance counts 145, 18 and 7, so both total 170. |
| `Tables.PercentagesAreShares` | server/services/nlp_query_processor.py:184-208 | In the patient-search and compliance tables, each percentage is the row's count as a share of the table total (50 and 170), rounded to one decimal. |
| `Tables.MedicalPercentagesAreNotShares` | server/services/nlp_query_processor.py:193-200 | The medical-analysis percentages are not shares of that table's own total of 63. |
| `Envelopes.Truncate` | server/services/nlp_query_processor.py:301 | A reply of at most 200 characters is kept exactly. A longer one becomes its first 200 characters followed by `...`, 203 characters in all. |
| `Envelopes.TruncateIdempotent` | server/services/nlp_query_processor.py:301 | Truncating a summary again leaves it unchanged. |
| `Envelopes.TruncateDependsOnPrefix` | server/services/nlp_query_processor.py:301 | Two long replies get the same summary exactly when their first 200 characters agree. |
| `Envelopes.MockResponse` | server/services/nlp_query_processor.py:269-288 | The "no key" envelope has `success = false` and the given error. It has `error` exactly because `success` is false, `queryType = UNKNOWN`, no results with a matching count of 0, no charts, and three non-empty suggestions. |
| `Envelopes.NaturalResponse` | server/services/nlp_query_processor.py:290-304 | The fallback envelope has `success = true` and no `error`, with `queryType = GENERAL`. `results` is the one record `{"response": raw}` and `resultCount` is 1. It has no charts, the truncated summary, the given time, and two non-empty suggestions. |
| `Envelopes.ExceptionResponse` | server/services/nlp_query_processor.py:139-145 | The handler's envelope has `success = false`, `error` equal to the exception text, and two non-empty suggestions. Its only keys are `success`, `error`, `interpretation` and `suggestions`, so it has no `results` and no count. |
| `Processor.ItemAssignmentError` | server/services/nlp_query_processor.py:127-128 | Stamping `executionTime` on a decoded value that is not a dict raises a `TypeError` with a non-empty message. |
| `Processor.Configured` | server/services/nlp_query_processor.py:93-94 | A missing key and an empty key both count as not configured. Any non-empty key counts as configured. |
| `Processor.Respond` | server/services/nlp_query_processor.py:93-137 | With no key, the result is the failure envelope with error `OpenAI API key not configured`, type `UNKNOWN`, empty results, count 0, no charts and three suggestions. If the model call raises, the result is the failure envelope with its message. A reply that is not JSON gives the `GENERAL` fallback around the raw text. A decoded dict gets the measured time and keeps its query type. Every key other than `results`, `resultCount`, `charts` and `executionTime` keeps the model's value. An unrecognised type returns the model's dict plus the time. A recognised type gets its fixed table with a matching count, and its fixed charts where it has any. Patient search and risk assessment keep the model's own `charts`. Decoded non-dict JSON ends as a failure. |
| `Processor.DispatchStamped` | server/services/nlp_query_processor.py:127-131 | Stamping `executionTime` and then dispatching keeps the stamp and the query type. It keeps every key that dispatch does not write. It installs the type's fixed table with a matching count, and its fixed charts where it has any. A type without fixed charts (patient search, risk assessment, or an unrecognised type) keeps the model's own `charts`. |
| `Processor.NoModelCallWithoutKey` | server/services/nlp_query_processor.py:94-95 | Without a key the result does not depend on the model reply, so no model call is made. |
| `Processor.ProcessQueryAsWritten` | server/services/nlp_query_processor.py:87-145 | The code as written: an exception escapes exactly when the request has no `query`. Otherwise the result is the envelope of the branch logic. |
| `Processor.MissingQueryEscapes` | server/services/nlp_query_processor.py:89-143 | A request without `query` escapes `process_query` as an `UnboundLocalError`. |
| `Processor.ProcessQuery` | server/services/nlp_query_processor.py:87-145 | With the intended catch-all restored, every request yields an envelope. A missing `query` gives a failure envelope with the `KeyError` text and two suggestions. Every other request is handled exactly as in the code as written. |
| `Processor.BuiltEnvelopesKeepErrorIffFailure` | server/services/nlp_query_processor.py:139-145 | On every path except a decoded dict, `error` is present exactly when `success` is false. |
| `SaId.ParseInt` | backend_test.py:112-114 | `int()` of text with no digit raises. Two ASCII digits read as the decimal number they spell. |
| `SaId.ParseIntChars` | backend_test.py:112-114 | `int()` raises on text holding any character other than a digit, ASCII whitespace, a sign or an underscore. |
| `SaId.BirthFields` | backend_test.py:111-114 | The three fields parse only when the ID has at least five characters, and only when each of its first six characters is one `int()` accepts. |
| `SaId.BirthFieldsOfDigits` | backend_test.py:111-114 | An ID starting with six digits reads as the three two-digit numbers at positions 0, 2 and 4. |
| `SaId.Slice` | backend_test.py:112-114 | Slicing agrees with sequence slicing inside the string and never yields more than `hi - lo` characters. |
| `SaId.ParseTwoDigits` | backend_test.py:112-136 | `int()` of a number printed with `:02d` gives the number back. |
| `SaId.TestIdFields` | backend_test.py:109-114 | `7807215422081` reads as year 78, month 7, day 21. |
| `SaId.CenturyOf` | backend_test.py:117-118 | The century is a multiple of 100, at most the current year, and within 100 of it. |
| `SaId.FullYear` | backend_test.py:119 | A two-digit year maps into `[century - 50, century + 49]` and keeps its last two digits. It falls in the previous century exactly when it is 50 or more. |
| `SaId.AgeOn` | backend_test.py:122-125 | The age is the number of birthdays that have occurred by the reference day, in (year, month, day) order: the one for `full_year + age` has occurred and the next has not. |
| `SaId.AgeIsUnique` | backend_test.py:122-125 | No other count has the two properties of `AgeOn`. |
| `SaId.AgeFromId` | backend_test.py:106-125 | An age is computed exactly when all three date fields parse as integers. |
| `SaId.AgeOfFields` | backend_test.py:116-125 | Once the fields are read, the computed age is `k` exactly when the `k`-th birthday after the pivoted full year has occurred by the reference day and the next one has not. |
| `SaId.BornOn1978July21` | backend_test.py:122-129 | Someone born on 1978-07-21 is 46 exactly from 2024-07-21 to 2025-07-20. |
| `SaId.BornIn78Window` | backend_test.py:116-129 | In the years 2000-2099, the two-digit year 78 pivots to 1978, and a birthday of 21 July gives age 46 exactly from 2024-07-21 to 2025-07-20. |
| `SaId.TestIdAgeWindow` | backend_test.py:127-129 | In the years 2000-2099, the test ID yields the expected 46 exactly when the reference day is from 2024-07-21 to 2025-07-20. |
| `Backend.CountPassed` | backend_test.py:315 | The passed count is at most the number of records. It equals that number exactly when every record succeeded, and is zero exactly when none did. |
| `Backend.CountPassedAppend` | backend_test.py:315 | Counting a log made of two parts is the sum of counting each part. |
| `Backend.CountPassedOne` | backend_test.py:315 | A single record counts one exactly when it succeeded. |
| `Backend.GetSummary` | backend_test.py:313-324 | `total` is the number of records, `passed` is the number of successful records, and `passed + failed == total`. No failures means every record succeeded, and no passes means none did. |
| `Backend.Logged` | backend_test.py:296-301 | A test leaves a successful record exactly when it completed and returned true. A test that raised leaves a failure. |
| `Backend.RunAllTests` | backend_test.py:279-311 | `passed` counts the tests that returned true. The result is true exactly when `passed == total`, exactly when every test returned true. The log grows by one record per test, in order, and its passed count grows by `passed`. |
| `Backend.CountOfLogged` | backend_test.py:296-311 | The records logged by a run are all successes exactly when every test returned true. |
| `Backend.SummaryOfFreshRun` | backend_test.py:313-336 | On a fresh log, the summary's totals equal the runner's own count of tests and passes. |
| `Backend.MissingFields` | backend_test.py:181 | The list of missing fields is never longer than the required list. |
| `Backend.MissingFieldsExact` | backend_test.py:181 | Every missing field is a required field absent from the record. Every absent required field is listed. The list is empty exactly when every required field is a key of the record. |
| `Backend.MissingFieldsOne` | backend_test.py:181 | A single required field is missing exactly when the record lacks it. |
| `Backend.MissingFieldsAppend` | backend_test.py:181 | Missing fields keep the order of the required list: a split list yields the missing fields of each part, concatenated. |
| `Backend.PatientDataStructureRun` | backend_test.py:155-204 | The structure test always completes, and it passes exactly when every required field is a key of the sample record. |
| `Backend.PatientDataStructurePasses` | backend_test.py:155-194 | The sample patient record has every required field, so the structure test passes. |
| `Backend.SaIdRun` | backend_test.py:106-153 | The SA ID test passes exactly when the computed age is 46. |
| `Backend.SaIdRunWindow` | backend_test.py:127-153 | In the years 2000-2099, the SA ID test passes exactly from 2024-07-21 to 2025-07-20. |
| `Backend.Suite` | backend_test.py:284-291 | The suite has six tests. The health, database and endpoint tests come first in that order. The structure test and the SA ID test on the reference day follow, and patient creation comes last. |
| `Backend.SuiteNeedsEachTest` | backend_test.py:284-291 | The six-test suite passes exactly when the four server tests and the SA ID test pass. The structure test always passes. |
| `Backend.SuitePassesIff` | backend_test.py:284-311 | In the years 2000-2099, every test passes exactly when the four server tests pass and the reference day is from 2024-07-21 to 2025-07-20. |

## Left out

- The language-model call (`LlmChat`, `UserMessage`, `send_message`) and the
  prompt text: external network I/O and configuration text. Its outcome is
  the `Reply` input.
- `json.loads`: a library parser. Its outcome is the `decoded` field of the
  reply.
- Reading `OPENAI_API_KEY`, `datetime.now()` and the execution-time
  measurement and formatting: the key, the reference day and the formatted
  elapsed-time text are parameters.
- The rendering of the request's `query` value inside f-strings: the request
  carries the rendered text. `userRole` and `requestId` only reach the prompt.
- `main()` of both files, `asyncio`, argv/stdin/stdout plumbing, and the JSON
  results file write.
- The four HTTP tests of `backend_test.py`: network calls. Each enters the
  suite as an input `TestRun`. Messages, timestamps, details and the
  formatted `success_rate` of the log records are also left out.
- `file-pel.py` and `file-9b7.py`: schema declarations handed to an external
  document parser, with no decision logic.
- Dict key order: Python dicts keep insertion order, Dafny maps do not.
- Floats: percentages are exact decimals (`JFloat(mantissa, exponent)`), not
  binary floating point.
- The `except` branch of `execute_query` (lines 179-182): nothing in its
  `try` can raise for a dict argument, so the branch is unreachable and not
  modelled.
- `SaId.ParseInt` models Python's `int()` for ASCII text only: surrounding
  whitespace (space, tab, line feed, vertical tab, form feed and carriage
  return), a sign, and digits with single underscores. Unicode digits and
  Unicode whitespace are left out.
- `SaId.AgeFromId` takes one reference day. The source reads the clock twice
  (lines 117 and 122), so a run across New Year at a century boundary could
  use two different years.
- `Processor.Respond` does not promise a non-empty `error` when the model
  call raises, because `str(e)` of an exception raised without arguments is
  empty. The texts of the `TypeError`s raised for decoded non-dict JSON are
  CPython's.

## Findings

| source | as written | input that shows it | evidently intended | confidence | as-written member | corrected member |
|---|---|---|---|---|---|---|
| server/services/nlp_query_processor.py:89-145 | `query = query_data['query']` runs inside the `try`. When the key is missing, the `except Exception` handler formats `f"Failed to process query: {query}"` with `query` unbound, so an `UnboundLocalError` escapes `process_query`. | a request dict without a `query` key, such as `{}` | the handler turns every fault into a failure envelope | high (not executed) | `Processor.ProcessQueryAsWritten`, `Processor.MissingQueryEscapes` | `Processor.ProcessQuery` |
