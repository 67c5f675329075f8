/**
  The three envelopes the query processor builds itself: the "no API key"
  envelope, the fallback for a reply that is not JSON, and the envelope for
  an exception caught in `process_query`.
 */
module Envelopes {
  import opened Json
  import opened Dispatch

  const ApiKeyMissing: string := "OpenAI API key not configured"

  /** Length of the raw reply kept in the fallback summary. */
  const SummaryLimit: nat := 200

  // Fixed texts of the envelopes.
  const MockInterpretation: string := "Unable to process query: "
  const MockSummary: string :=
    "AI service not configured. Please set OPENAI_API_KEY environment variable."
  const MockSuggestions: seq<string> := [
    "Set up OpenAI API key to enable natural language queries",
    "Try using the manual query interface",
    "Contact administrator for assistance"
  ]
  const FallbackInterpretation: string := "AI interpretation of: "
  const FallbackSuggestions: seq<string> := ["Try a more specific query", "Ask about patient statistics"]
  const FailureInterpretation: string := "Failed to process query: "
  const RetrySuggestions: seq<string> := ["Try rephrasing your question", "Use simpler medical terms"]

  /** `error` is present exactly when `success` is `False`. */
  predicate ErrorIffFailure(d: Dict) {
    "error" in d <==> Has(d, "success", JBool(false))
  }

  /** `suggestions` is a list of `n` non-empty strings. */
  predicate Suggests(d: Dict, n: nat) {
    "suggestions" in d && d["suggestions"].JArr? && |d["suggestions"].items| == n
    && forall i :: 0 <= i < n ==>
         d["suggestions"].items[i].JStr? && |d["suggestions"].items[i].s| > 0
  }

  /** `response[:200] + "..." if len(response) > 200 else response` */
  function Truncate(raw: string): (s: string)
    ensures |s| <= SummaryLimit + 3
    ensures |raw| <= SummaryLimit ==> s == raw
    ensures |raw| > SummaryLimit ==>
              |s| == SummaryLimit + 3 && s[..SummaryLimit] == raw[..SummaryLimit]
              && s[SummaryLimit..] == "..."
  {
    if |raw| > SummaryLimit then raw[..SummaryLimit] + "..." else raw
  }

  /** A summary is already short enough: truncating it again gives it back. */
  lemma TruncateIdempotent(raw: string)
    ensures Truncate(Truncate(raw)) == Truncate(raw)
  {
  }

  /** The kept part of a long reply determines its summary, and nothing after it does. */
  lemma TruncateDependsOnPrefix(a: string, b: string)
    requires |a| > SummaryLimit && |b| > SummaryLimit
    ensures Truncate(a) == Truncate(b) <==> a[..SummaryLimit] == b[..SummaryLimit]
  {
    if Truncate(a) == Truncate(b) {
      assert a[..SummaryLimit] == Truncate(a)[..SummaryLimit];
    }
  }

  /** `create_mock_response(query, error_msg)` */
  function MockResponse(query: string, errorMsg: string): (d: Dict)
    ensures Has(d, "success", JBool(false)) && Has(d, "error", JStr(errorMsg))
    ensures ErrorIffFailure(d)
    ensures Has(d, "queryType", JStr("UNKNOWN"))
    ensures Has(d, "results", JArr([])) && CountMatches(d)
    ensures Has(d, "charts", JArr([]))
    ensures Suggests(d, 3)
  {
    // Python key order is not modelled; the map literal lists the fixed texts first.
    map[
      "interpretation" := JStr(MockInterpretation + query),
      "mongoQuery" := JObj(map[]),
      "sqlQuery" := JStr(""),
      "executionTime" := JStr("0ms"),
      "summary" := JStr(MockSummary),
      "success" := JBool(false),
      "error" := JStr(errorMsg),
      "queryType" := JStr("UNKNOWN"),
      "results" := JArr([]),
      "resultCount" := JInt(0),
      "charts" := JArr([]),
      "suggestions" := JArr([JStr(MockSuggestions[0]), JStr(MockSuggestions[1]), JStr(MockSuggestions[2])])
    ]
  }

  /** `parse_natural_response(response, query, execution_time)`, with the time already formatted. */
  function NaturalResponse(response: string, query: string, elapsed: string): (d: Dict)
    ensures Has(d, "success", JBool(true)) && ErrorIffFailure(d)
    ensures Has(d, "queryType", JStr("GENERAL"))
    ensures Has(d, "results", JArr([JObj(map["response" := JStr(response)])]))
    ensures CountMatches(d) && Has(d, "resultCount", JInt(1))
    ensures Has(d, "charts", JArr([]))
    ensures Has(d, "summary", JStr(Truncate(response)))
    ensures Has(d, "executionTime", JStr(elapsed))
    ensures Suggests(d, 2)
  {
    map[
      "interpretation" := JStr(FallbackInterpretation + query),
      "mongoQuery" := JObj(map[]),
      "sqlQuery" := JStr(""),
      "success" := JBool(true),
      "queryType" := JStr("GENERAL"),
      "results" := JArr([JObj(map["response" := JStr(response)])]),
      "resultCount" := JInt(1),
      "executionTime" := JStr(elapsed),
      "summary" := JStr(Truncate(response)),
      "charts" := JArr([]),
      "suggestions" := JArr([JStr(FallbackSuggestions[0]), JStr(FallbackSuggestions[1])])
    ]
  }

  /**
    The dict the `except Exception` handler of `process_query` returns.
    It has no `results`, `resultCount`, `queryType` or `charts` at all.
   */
  function ExceptionResponse(message: string, query: string): (d: Dict)
    ensures Has(d, "success", JBool(false)) && Has(d, "error", JStr(message))
    ensures ErrorIffFailure(d)
    ensures Suggests(d, 2)
    ensures d.Keys == {"success", "error", "interpretation", "suggestions"}
    ensures !CountMatches(d)
  {
    map[
      "success" := JBool(false),
      "error" := JStr(message),
      "interpretation" := JStr(FailureInterpretation + query),
      "suggestions" := JArr([JStr(RetrySuggestions[0]), JStr(RetrySuggestions[1])])
    ]
  }
}
