/** `ParserAgent.execute`: turns the raw problem text into the structured problem the later
    stages read. The model's reply is an outcome: the text `_call_llm` returned, or the message of
    whatever it (or the prompt building before it) raised. */
module ParserAgent {
  import opened Wrappers
  import opened PyJson
  import PyDict
  import Text
  import AgentJson

  /** The keys of the structured problem, in the order the fallbacks write them. */
  const OutputKeys: seq<string> :=
    ["problem_text", "topic", "variables", "constraints", "equations", "needs_clarification", "confidence", "reasoning"]

  /** The structured problem the agent returns when it has none from the model. */
  function Fallback(problemText: Json, confidence: real, reasoning: string): Json
  {
    JObject([("problem_text", problemText), ("topic", JStr("unknown")), ("variables", JList([])),
             ("constraints", JList([])), ("equations", JList([])), ("needs_clarification", JBool(true)),
             ("confidence", JFloat(confidence)), ("reasoning", JStr(reasoning))])
  }

  const ParseFailureReasoning: string := "Failed to parse problem structure"

  /** `input_data.get("raw_text", "")` */
  function RawText(input: Fields): Json
  {
    FieldOr(input, "raw_text", JStr(""))
  }

  /** The reply text, once the raw text has been sliced for the log line (`raw_text[:100]`,
      which raises on a value that does not slice) and the model has been called. */
  function Respond(input: Fields, response: Result<string, string>): Result<string, string>
  {
    var logged :- SliceTo(RawText(input), 100);
    response
  }

  function Execute(input: Fields, response: Result<string, string>, parse: string -> Option<Json>): (out: Json)
    ensures Respond(input, response).Success? && AgentJson.ParseReply(Respond(input, response).value, parse).Some? ==>
              out == AgentJson.ParseReply(Respond(input, response).value, parse).value
  {
    match Respond(input, response)
    case Failure(e) => Fallback(RawText(input), 0.0, "Error: " + e)
    case Success(reply) =>
      match AgentJson.ParseReply(reply, parse)
      case Some(parsed) => parsed
      case None => Fallback(RawText(input), 0.3, ParseFailureReasoning)
  }

  /** Whenever the agent did not get an object from the model, its answer asks for clarification,
      carries the raw text back as the problem, has an unknown topic, and a confidence of 0.3 after
      an unparsable reply or 0.0 after an error. */
  lemma FallbackNeedsClarification(input: Fields, response: Result<string, string>, parse: string -> Option<Json>)
    requires Respond(input, response).Failure? || AgentJson.ParseReply(Respond(input, response).value, parse).None?
    ensures var out := Execute(input, response, parse);
            out.JObject? && PyDict.Keys(out.fields) == OutputKeys
            && FieldOr(out.fields, "needs_clarification", JNull) == JBool(true)
            && FieldOr(out.fields, "problem_text", JNull) == FieldOr(input, "raw_text", JStr(""))
            && FieldOr(out.fields, "topic", JNull) == JStr("unknown")
            && FieldOr(out.fields, "confidence", JNull) == JFloat(if Respond(input, response).Failure? then 0.0 else 0.3)
            && FieldOr(out.fields, "reasoning", JNull)
               == JStr(if Respond(input, response).Failure? then "Error: " + Respond(input, response).error else ParseFailureReasoning)
  {
    match Respond(input, response)
    case Failure(e) =>
      FallbackSchema(RawText(input), 0.0, "Error: " + e);
      FallbackFields(RawText(input), 0.0, "Error: " + e);
    case Success(_) =>
      FallbackSchema(RawText(input), 0.3, ParseFailureReasoning);
      FallbackFields(RawText(input), 0.3, ParseFailureReasoning);
  }

  /** The keys of a fallback are the schema's, in order. */
  lemma FallbackSchema(problemText: Json, confidence: real, reasoning: string)
    ensures PyDict.Keys(Fallback(problemText, confidence, reasoning).fields) == OutputKeys
  {
  }

  /** `get` finds each value of a fallback. */
  lemma FallbackFields(problemText: Json, confidence: real, reasoning: string)
    ensures var fs := Fallback(problemText, confidence, reasoning).fields;
            FieldOr(fs, "problem_text", JNull) == problemText
            && FieldOr(fs, "topic", JNull) == JStr("unknown")
            && FieldOr(fs, "needs_clarification", JNull) == JBool(true)
            && FieldOr(fs, "confidence", JNull) == JFloat(confidence)
            && FieldOr(fs, "reasoning", JNull) == JStr(reasoning)
  {
    var fs := Fallback(problemText, confidence, reasoning).fields;
    PyDict.LookupAt(fs, 0);
    PyDict.LookupAt(fs, 1);
    PyDict.LookupAt(fs, 5);
    PyDict.LookupAt(fs, 6);
    PyDict.LookupAt(fs, 7);
  }

  /** A reply holding one object between text without braces yields exactly what `json.loads`
      makes of that object: the parsed output is passed on unchecked. */
  lemma ReturnsParsedObject(input: Fields, prefix: string, obj: string, suffix: string, parse: string -> Option<Json>)
    requires SliceTo(RawText(input), 100).Success?
    requires |obj| >= 1 && obj[0] == '{' && obj[|obj| - 1] == '}' && '{' !in prefix && '}' !in suffix
    requires parse(obj).Some?
    ensures Execute(input, Success(prefix + obj + suffix), parse) == parse(obj).value
  {
    AgentJson.CandidateExtracts(prefix, obj, suffix);
  }

  /** A raw text that is not a string (nor a list) makes the log line raise before the model is
      called, and the error fallback keeps that value as the problem text. */
  lemma UnsliceableRawTextIsError(input: Fields, response: Result<string, string>, parse: string -> Option<Json>)
    requires var raw := RawText(input); !(raw.JStr? || raw.JList?)
    ensures var out := Execute(input, response, parse);
            FieldOr(out.fields, "confidence", JNull) == JFloat(0.0)
            && FieldOr(out.fields, "problem_text", JNull) == RawText(input)
  {
    FallbackFields(RawText(input), 0.0, "Error: " + Respond(input, response).error);
  }
}
