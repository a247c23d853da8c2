/** `IntentRouterAgent.execute`: asks the model for a solution strategy for the parsed problem,
    falling back to solving by hand. */
module IntentRouterAgent {
  import opened Wrappers
  import opened PyJson
  import PyDict
  import AgentJson

  const OutputKeys: seq<string> := ["strategy", "tools", "approach", "confidence"]

  const ManualApproach: string := "Solve step-by-step manually"

  /** The strategy returned when the model gave none: solve by hand with the `manual` tool. */
  function Manual(approach: string, confidence: real): Json
  {
    JObject([("strategy", JStr("manual")), ("tools", JList([JStr("manual")])),
             ("approach", JStr(approach)), ("confidence", JFloat(confidence))])
  }

  /** The reply text, once `parsed_problem.get("topic", "unknown")` and
      `parsed_problem.get("problem_text", "")` have been read for the prompt (they raise when the
      parsed problem is not a dict) and the model has been called. */
  function Respond(input: Fields, response: Result<string, string>): Result<string, string>
  {
    var parsed := FieldOr(input, "parsed_problem", JObject([]));
    var topic :- Get(parsed, "topic", JStr("unknown"));
    var problemText :- Get(parsed, "problem_text", JStr(""));
    response
  }

  function Execute(input: Fields, response: Result<string, string>, parse: string -> Option<Json>): (out: Json)
    ensures Respond(input, response).Success? && AgentJson.ParseReply(Respond(input, response).value, parse).Some? ==>
              out == AgentJson.ParseReply(Respond(input, response).value, parse).value
  {
    match Respond(input, response)
    case Failure(e) => Manual("Error in routing: " + e, 0.0)
    case Success(reply) =>
      match AgentJson.ParseReply(reply, parse)
      case Some(strategy) => strategy
      case None => Manual(ManualApproach, 0.5)
  }

  lemma ManualFields(approach: string, confidence: real)
    ensures PyDict.Keys(Manual(approach, confidence).fields) == OutputKeys
    ensures var fs := Manual(approach, confidence).fields;
            FieldOr(fs, "strategy", JNull) == JStr("manual")
            && FieldOr(fs, "tools", JNull) == JList([JStr("manual")])
            && FieldOr(fs, "approach", JNull) == JStr(approach)
            && FieldOr(fs, "confidence", JNull) == JFloat(confidence)
  {
    var fs := Manual(approach, confidence).fields;
    PyDict.LookupAt(fs, 0);
    PyDict.LookupAt(fs, 1);
    PyDict.LookupAt(fs, 2);
    PyDict.LookupAt(fs, 3);
  }

  /** Without a strategy from the model the agent always routes to manual solving: confidence 0.5
      after an unparsable reply, 0.0 with the error in the approach otherwise. */
  lemma FallbackIsManual(input: Fields, response: Result<string, string>, parse: string -> Option<Json>)
    requires Respond(input, response).Failure? || AgentJson.ParseReply(Respond(input, response).value, parse).None?
    ensures var out := Execute(input, response, parse);
            out.JObject? && PyDict.Keys(out.fields) == OutputKeys
            && FieldOr(out.fields, "strategy", JNull) == JStr("manual")
            && FieldOr(out.fields, "tools", JNull) == JList([JStr("manual")])
            && FieldOr(out.fields, "confidence", JNull) == JFloat(if Respond(input, response).Failure? then 0.0 else 0.5)
            && FieldOr(out.fields, "approach", JNull)
               == JStr(if Respond(input, response).Failure? then "Error in routing: " + Respond(input, response).error else ManualApproach)
  {
    match Respond(input, response)
    case Failure(e) => ManualFields("Error in routing: " + e, 0.0);
    case Success(_) => ManualFields(ManualApproach, 0.5);
  }

  /** A parsed problem that is not a dict fails on `.get` before the model is called. */
  lemma NonDictProblemIsError(input: Fields, response: Result<string, string>)
    requires !FieldOr(input, "parsed_problem", JObject([])).JObject?
    ensures Respond(input, response) == Failure(NoAttribute(FieldOr(input, "parsed_problem", JObject([])), "get"))
  {
  }

  /** A reply holding one object between text without braces yields exactly that object. */
  lemma ReturnsParsedObject(input: Fields, prefix: string, obj: string, suffix: string, parse: string -> Option<Json>)
    requires FieldOr(input, "parsed_problem", JObject([])).JObject?
    requires |obj| >= 1 && obj[0] == '{' && obj[|obj| - 1] == '}' && '{' !in prefix && '}' !in suffix
    requires parse(obj).Some?
    ensures Execute(input, Success(prefix + obj + suffix), parse) == parse(obj).value
  {
    AgentJson.CandidateExtracts(prefix, obj, suffix);
  }
}
