/** `VerifierAgent.execute`: asks the model to check a solution and forces human review whenever
    the reported confidence is below the verifier's threshold. */
module VerifierAgent {
  import opened Wrappers
  import opened PyJson
  import PyDict
  import Text
  import AgentJson

  const OutputKeys: seq<string> := ["is_correct", "confidence", "issues_found", "requires_hitl", "verification_details"]

  /** The confidence assumed when the model reports none. */
  const DefaultConfidence: real := 0.5

  function Fallback(confidence: real, issue: string, details: string): Json
  {
    JObject([("is_correct", JBool(false)), ("confidence", JFloat(confidence)),
             ("issues_found", JList([JStr(issue)])), ("requires_hitl", JBool(true)),
             ("verification_details", JStr(details))])
  }

  function ParseFailureOutput(reply: string): Json
  {
    Fallback(0.3, "Failed to parse verification results", Text.Take(reply, 500))
  }

  function ErrorOutput(message: string): Json
  {
    Fallback(0.0, "Error in verification: " + message, "Error: " + message)
  }

  /** What the prompt reads before the model is called: the parsed problem and the solution must
      be dicts, the final answer must slice (`final_answer[:100]`) and the steps must be strings
      (`chr(10).join(steps)`). */
  function Respond(input: Fields, response: Result<string, string>): Result<string, string>
  {
    var parsed := FieldOr(input, "parsed_problem", JObject([]));
    var solution := FieldOr(input, "solution", JObject([]));
    var problemText :- Get(parsed, "problem_text", JStr(""));
    var finalAnswer :- Get(solution, "final_answer", JStr(""));
    var steps :- Get(solution, "steps", JList([]));
    var logged :- SliceTo(finalAnswer, 100);
    var stepLines :- StrJoin("\n", steps);
    response
  }

  /** `confidence = output.get('confidence', 0.5)` and, when it is below the threshold,
      `output['requires_hitl'] = True`. */
  function HitlOverride(output: Json, threshold: real): (r: Result<Json, string>)
    ensures r.Success? ==> output.JObject? && r.value.JObject?
  {
    var confidence :- Get(output, "confidence", JFloat(DefaultConfidence));
    var low :- LessThan(confidence, threshold);
    if low then Success(JObject(PyDict.Upsert(output.fields, "requires_hitl", JBool(true))))
    else Success(output)
  }

  /** `execute`: an exception before or during the call gives the error output; a reply that
      does not parse gives the parse fallback; a parsed reply goes through the confidence
      override, whose exception also gives the error output. */
  function Execute(input: Fields, response: Result<string, string>, parse: string -> Option<Json>, threshold: real): (out: Json)
    ensures Respond(input, response).Failure? ==> out == ErrorOutput(Respond(input, response).error)
    ensures Respond(input, response).Success?
            && AgentJson.ParseReply(Respond(input, response).value, parse).None? ==>
              out == ParseFailureOutput(Respond(input, response).value)
    ensures Respond(input, response).Success?
            && AgentJson.ParseReply(Respond(input, response).value, parse).Some? ==>
              var output := AgentJson.ParseReply(Respond(input, response).value, parse).value;
              (HitlOverride(output, threshold).Success? ==> out == HitlOverride(output, threshold).value)
              && (HitlOverride(output, threshold).Failure? ==> out == ErrorOutput(HitlOverride(output, threshold).error))
  {
    match Respond(input, response)
    case Failure(e) => ErrorOutput(e)
    case Success(reply) =>
      match AgentJson.ParseReply(reply, parse)
      case None => ParseFailureOutput(reply)
      case Some(output) =>
        match HitlOverride(output, threshold)
        case Success(checked) => checked
        case Failure(e) => ErrorOutput(e)
  }

  /** The confidence the output reports, as `.get('confidence', 0.5)` reads it. */
  function ReportedConfidence(out: Fields): Json
  {
    FieldOr(out, "confidence", JFloat(DefaultConfidence))
  }

  lemma FallbackFields(confidence: real, issue: string, details: string)
    ensures PyDict.Keys(Fallback(confidence, issue, details).fields) == OutputKeys
    ensures var fs := Fallback(confidence, issue, details).fields;
            FieldOr(fs, "is_correct", JNull) == JBool(false)
            && FieldOr(fs, "confidence", JFloat(DefaultConfidence)) == JFloat(confidence)
            && FieldOr(fs, "issues_found", JNull) == JList([JStr(issue)])
            && FieldOr(fs, "requires_hitl", JNull) == JBool(true)
            && FieldOr(fs, "verification_details", JNull) == JStr(details)
  {
    var fs := Fallback(confidence, issue, details).fields;
    PyDict.LookupAt(fs, 0);
    PyDict.LookupAt(fs, 1);
    PyDict.LookupAt(fs, 2);
    PyDict.LookupAt(fs, 3);
    PyDict.LookupAt(fs, 4);
  }

  /** The verifier always answers with a dict, whatever the model says. */
  lemma AlwaysDict(input: Fields, response: Result<string, string>, parse: string -> Option<Json>, threshold: real)
    ensures Execute(input, response, parse, threshold).JObject?
  {
  }

  /** No output ever reports a confidence below the threshold without asking for human review:
      the fallbacks ask for it, and the override adds it to a parsed answer. */
  lemma LowConfidenceRequiresHitl(input: Fields, response: Result<string, string>, parse: string -> Option<Json>, threshold: real)
    ensures var out := Execute(input, response, parse, threshold).fields;
            var c := AsNumber(ReportedConfidence(out));
            c.Some? && c.value < threshold ==> FieldOr(out, "requires_hitl", JNull) == JBool(true)
  {
    match Respond(input, response)
    case Failure(e) =>
      FallbackFields(0.0, "Error in verification: " + e, "Error: " + e);
    case Success(reply) =>
      match AgentJson.ParseReply(reply, parse)
      case None =>
        FallbackFields(0.3, "Failed to parse verification results", Text.Take(reply, 500));
      case Some(output) =>
        match HitlOverride(output, threshold)
        case Failure(e) =>
          FallbackFields(0.0, "Error in verification: " + e, "Error: " + e);
        case Success(checked) =>
          var low := LessThan(Get(output, "confidence", JFloat(DefaultConfidence)).value, threshold).value;
          if low {
            PyDict.LookupUpsertSame(output.fields, "requires_hitl", JBool(true));
            PyDict.LookupUpsertOther(output.fields, "requires_hitl", JBool(true), "confidence");
          }
  }

  /** The override never clears a review flag the model set: the flag either stays as it was or
      becomes `True`. */
  lemma OverrideNeverClears(output: Fields, threshold: real)
    requires HitlOverride(JObject(output), threshold).Success?
    ensures var after := HitlOverride(JObject(output), threshold).value.fields;
            FieldOr(after, "requires_hitl", JNull) == FieldOr(output, "requires_hitl", JNull)
            || FieldOr(after, "requires_hitl", JNull) == JBool(true)
  {
    PyDict.LookupUpsertSame(output, "requires_hitl", JBool(true));
  }

  /** With a confidence at or above the threshold the parsed answer is returned untouched. */
  lemma ConfidentAnswerUnchanged(output: Fields, threshold: real)
    requires var c := AsNumber(FieldOr(output, "confidence", JFloat(DefaultConfidence))); c.Some? && c.value >= threshold
    ensures HitlOverride(JObject(output), threshold) == Success(JObject(output))
  {
  }

  /** Any reply that `json.loads` rejects gives the parse fallback: not correct, confidence 0.3,
      review required and the first 500 characters of the reply as the details. */
  lemma UnstructuredReply(input: Fields, reply: string, parse: string -> Option<Json>, threshold: real)
    requires AgentJson.ParseReply(reply, parse).None?
    requires Respond(input, Success(reply)) == Success(reply)
    ensures var out := Execute(input, Success(reply), parse, threshold).fields;
            FieldOr(out, "is_correct", JNull) == JBool(false)
            && FieldOr(out, "confidence", JNull) == JFloat(0.3)
            && FieldOr(out, "requires_hitl", JNull) == JBool(true)
            && FieldOr(out, "issues_found", JNull) == JList([JStr("Failed to parse verification results")])
            && FieldOr(out, "verification_details", JNull) == JStr(Text.Take(reply, 500))
  {
    FallbackFields(0.3, "Failed to parse verification results", Text.Take(reply, 500));
    PyDict.LookupAt(ParseFailureOutput(reply).fields, 1);
  }

  /** A reply without braces, such as "I think it's right", is handed whole to `json.loads`, so
      when that fails it takes the fallback path, with the reply itself as the details. */
  lemma ThinkItsRight(input: Fields, parse: string -> Option<Json>, threshold: real)
    requires parse("I think it's right").None?
    requires Respond(input, Success("I think it's right")) == Success("I think it's right")
    ensures var out := Execute(input, Success("I think it's right"), parse, threshold).fields;
            FieldOr(out, "requires_hitl", JNull) == JBool(true)
            && FieldOr(out, "verification_details", JNull) == JStr("I think it's right")
  {
    var reply := "I think it's right";
    assert '{' !in reply;
    assert AgentJson.JsonCandidate(reply) == reply;
    UnstructuredReply(input, reply, parse, threshold);
  }

  /** Any exception gives a single issue naming it, confidence 0.0 and a review request. */
  lemma ErrorOutputFields(message: string)
    ensures var out := ErrorOutput(message).fields;
            FieldOr(out, "confidence", JNull) == JFloat(0.0)
            && FieldOr(out, "issues_found", JNull) == JList([JStr("Error in verification: " + message)])
            && FieldOr(out, "requires_hitl", JNull) == JBool(true)
            && FieldOr(out, "verification_details", JNull) == JStr("Error: " + message)
  {
    FallbackFields(0.0, "Error in verification: " + message, "Error: " + message);
    PyDict.LookupAt(ErrorOutput(message).fields, 1);
  }
}
