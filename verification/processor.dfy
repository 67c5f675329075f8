/**
  `process_query`: the top-level branch of the query processor. The model
  call and the JSON decoding of its reply are inputs, as is the formatted
  elapsed time.
 */
module Processor {
  import opened Wrappers
  import opened Json
  import opened Tables
  import opened Dispatch
  import opened Envelopes

  /**
    The request dict, reduced to what the branch logic reads: the text the
    `query` value renders as inside an f-string, or None when the key is
    absent. `userRole` and `requestId` only reach the prompt.
   */
  datatype Request = Request(query: Option<string>)

  /** What the model call produced. */
  datatype Reply =
      /** `send_message` raised an exception whose `str()` is `message`. */
    | ModelRaised(message: string)
      /** The reply text, and `json.loads` of it: None when it raised `JSONDecodeError`. */
    | ModelReplied(text: string, decoded: Option<Json>)

  /** `process_query` either returns a dict or lets an exception escape. */
  datatype Outcome = Returned(envelope: Dict) | Escaped(exception: string)

  /** `if not self.openai_api_key`: an unset or empty key counts as missing. */
  predicate Configured(apiKey: Option<string>)
    ensures apiKey.None? ==> !Configured(apiKey)
    ensures apiKey == Some("") ==> !Configured(apiKey)
    ensures apiKey.Some? && |apiKey.value| > 0 ==> Configured(apiKey)
  {
    apiKey.Some? && apiKey.value != ""
  }

  /** The `TypeError` CPython raises for `value['executionTime'] = ...` on a decoded non-dict. */
  function ItemAssignmentError(j: Json): (msg: string)
    requires !j.JObj?
    ensures msg != ""
  {
    match j
    case JArr(_) => "list indices must be integers or slices, not str"
    case JStr(_) => "'str' object does not support item assignment"
    case JInt(_) => "'int' object does not support item assignment"
    case JFloat(_, _) => "'float' object does not support item assignment"
    case JBool(_) => "'bool' object does not support item assignment"
    case JNull => "'NoneType' object does not support item assignment"
  }

  /** `process_query` once `query` has been read from the request. */
  function Respond(query: string, apiKey: Option<string>, reply: Reply, elapsed: string): (d: Dict)
    // No key: the fixed failure envelope.
    ensures !Configured(apiKey) ==>
              Has(d, "success", JBool(false)) && Has(d, "error", JStr(ApiKeyMissing))
              && Has(d, "queryType", JStr("UNKNOWN")) && Has(d, "results", JArr([]))
              && Has(d, "resultCount", JInt(0)) && Has(d, "charts", JArr([]))
              && Suggests(d, 3)
    // The model call raised: the exception envelope with its message.
    ensures Configured(apiKey) && reply.ModelRaised? ==>
              Has(d, "success", JBool(false)) && Has(d, "error", JStr(reply.message))
              && Suggests(d, 2) && "results" !in d
    // A reply that is not JSON: the fallback envelope around the raw text.
    ensures Configured(apiKey) && reply.ModelReplied? && reply.decoded.None? ==>
              Has(d, "success", JBool(true)) && Has(d, "queryType", JStr("GENERAL"))
              && Has(d, "results", JArr([JObj(map["response" := JStr(reply.text)])]))
              && Has(d, "resultCount", JInt(1)) && Has(d, "charts", JArr([]))
              && Has(d, "summary", JStr(Truncate(reply.text)))
    // A decoded dict: its own keys, the measured time, and the dispatch.
    ensures Configured(apiKey) && reply.ModelReplied? && reply.decoded.Some?
            && reply.decoded.value.JObj? ==>
              var m := reply.decoded.value.fields;
              && Has(d, "executionTime", JStr(elapsed))
              && Classify(d) == Classify(m)
              && (forall k :: k !in WrittenKeys && k != "executionTime" ==> SameAt(m, d, k))
              && (Classify(m).Unrecognised? ==> d == m["executionTime" := JStr(elapsed)])
              && (!Classify(m).Unrecognised? ==>
                    Has(d, "results", RowsJson(ResultTable(Classify(m)))) && CountMatches(d))
              && (ChartTable(Classify(m)).Some? ==>
                    Has(d, "charts", JArr(ChartsJson(ChartTable(Classify(m)).value))))
              && (ChartTable(Classify(m)).None? ==> SameAt(m, d, "charts"))
    // Decoded JSON that is not a dict: the assignment raises, caught as a failure.
    ensures Configured(apiKey) && reply.ModelReplied? && reply.decoded.Some?
            && !reply.decoded.value.JObj? ==>
              Has(d, "success", JBool(false)) && Has(d, "error", JStr(ItemAssignmentError(reply.decoded.value)))
              && Suggests(d, 2)
  {
    if !Configured(apiKey) then MockResponse(query, ApiKeyMissing)
    else match reply
      case ModelRaised(message) => ExceptionResponse(message, query)
      case ModelReplied(text, None) => NaturalResponse(text, query, elapsed)
      case ModelReplied(_, Some(JObj(m))) =>
        DispatchStamped(m, elapsed);
        ExecuteQuery(m["executionTime" := JStr(elapsed)])
      case ModelReplied(_, Some(j)) => ExceptionResponse(ItemAssignmentError(j), query)
  }

  /** Stamping the time does not change the type, and dispatch keeps the stamp. */
  lemma DispatchStamped(m: Dict, elapsed: string)
    ensures var d := ExecuteQuery(m["executionTime" := JStr(elapsed)]);
      && Has(d, "executionTime", JStr(elapsed))
      && Classify(d) == Classify(m)
      && (forall k :: k !in WrittenKeys && k != "executionTime" ==> SameAt(m, d, k))
      && (Classify(m).Unrecognised? ==> d == m["executionTime" := JStr(elapsed)])
      && (!Classify(m).Unrecognised? ==>
            Has(d, "results", RowsJson(ResultTable(Classify(m)))) && CountMatches(d))
      && (ChartTable(Classify(m)).Some? ==>
            Has(d, "charts", JArr(ChartsJson(ChartTable(Classify(m)).value))))
      && (ChartTable(Classify(m)).None? ==> SameAt(m, d, "charts"))
  {
    var stamped := m["executionTime" := JStr(elapsed)];
    assert SameAt(m, stamped, "queryType");
    assert TypeTag(stamped) == TypeTag(m);
    ExecuteQueryIdempotent(stamped);
    assert "executionTime" !in WrittenKeys;
  }

  /** Without a key the reply is never consulted: no model call is made on that path. */
  lemma NoModelCallWithoutKey(query: string, apiKey: Option<string>, r1: Reply, r2: Reply, elapsed: string)
    requires !Configured(apiKey)
    ensures Respond(query, apiKey, r1, elapsed) == Respond(query, apiKey, r2, elapsed)
  {
  }

  /**
    `process_query` as written: `query` is bound inside the `try`, so when
    the request has no `query` key the `KeyError` handler reads an unbound
    local and an `UnboundLocalError` escapes instead of an envelope.
   */
  function ProcessQueryAsWritten(req: Request, apiKey: Option<string>, reply: Reply, elapsed: string): (r: Outcome)
    ensures r.Escaped? <==> req.query.None?
    ensures req.query.Some? ==> r == Returned(Respond(req.query.value, apiKey, reply, elapsed))
  {
    match req.query
    case None => Escaped("UnboundLocalError")
    case Some(q) => Returned(Respond(q, apiKey, reply, elapsed))
  }

  /** A request without `query` escapes the handler that was meant to catch every fault. */
  lemma MissingQueryEscapes(apiKey: Option<string>, reply: Reply, elapsed: string)
    ensures ProcessQueryAsWritten(Request(None), apiKey, reply, elapsed).Escaped?
  {
  }

  /** The `str()` of the `KeyError` raised by `query_data['query']`. */
  const MissingQueryError: string := "'query'"

  /**
    `process_query` with the evident intent restored: every fault, including
    a missing `query`, ends as an envelope. It agrees with the code as
    written on every request that has a `query`.
   */
  function ProcessQuery(req: Request, apiKey: Option<string>, reply: Reply, elapsed: string): (r: Outcome)
    ensures r.Returned?
    ensures req.query.None? ==>
              Has(r.envelope, "success", JBool(false))
              && Has(r.envelope, "error", JStr(MissingQueryError))
              && Suggests(r.envelope, 2)
    ensures req.query.Some? ==> r == ProcessQueryAsWritten(req, apiKey, reply, elapsed)
  {
    match req.query
    case None => Returned(ExceptionResponse(MissingQueryError, ""))
    case Some(q) => Returned(Respond(q, apiKey, reply, elapsed))
  }

  /**
    Every envelope `process_query` builds itself, as opposed to one decoded
    from the model, has `error` exactly when `success` is false.
   */
  lemma BuiltEnvelopesKeepErrorIffFailure(req: Request, apiKey: Option<string>, reply: Reply, elapsed: string)
    requires !(Configured(apiKey) && reply.ModelReplied? && reply.decoded.Some?
               && reply.decoded.value.JObj?)
    ensures ErrorIffFailure(ProcessQuery(req, apiKey, reply, elapsed).envelope)
  {
  }
}
