/** `ExplainerAgent.execute`: asks the model for a student-friendly explanation of the solution,
    degrading to the raw reply or to an error text. */
module ExplainerAgent {
  import opened Wrappers
  import opened PyJson
  import PyDict
  import Text
  import AgentJson

  const OutputKeys: seq<string> := ["explanation", "key_concepts", "common_mistakes", "tips"]

  function Fallback(explanation: string, keyConcepts: seq<Json>): Json
  {
    JObject([("explanation", JStr(explanation)), ("key_concepts", JList(keyConcepts)),
             ("common_mistakes", JList([])), ("tips", JList([]))])
  }

  function ErrorOutput(message: string): Json
  {
    Fallback("Error generating explanation: " + message, [])
  }

  /** The solution steps as the prompt shows them: `chr(10).join(steps)`. */
  function StepLines(input: Fields): Result<string, string>
  {
    var solution := FieldOr(input, "solution", JObject([]));
    var steps :- Get(solution, "steps", JList([]));
    StrJoin("\n", steps)
  }

  /** The topic, read for the prompt and for the parse fallback, and the reply, once everything
      the prompt reads has been read (each `.get` raises on a value that is not a dict, the join
      on steps that are not strings) and the model has been called. */
  function Respond(input: Fields, response: Result<string, string>): Result<(Json, string), string>
  {
    var parsed := FieldOr(input, "parsed_problem", JObject([]));
    var solution := FieldOr(input, "solution", JObject([]));
    var problemText :- Get(parsed, "problem_text", JStr(""));
    var topic :- Get(parsed, "topic", JStr(""));
    var steps :- Get(solution, "steps", JList([]));
    var finalAnswer :- Get(solution, "final_answer", JStr(""));
    var stepLines :- StepLines(input);
    var reply :- response;
    Success((topic, reply))
  }

  function Execute(input: Fields, response: Result<string, string>, parse: string -> Option<Json>): (out: Json)
    ensures Respond(input, response).Success? && AgentJson.ParseReply(Respond(input, response).value.1, parse).Some? ==>
              out == AgentJson.ParseReply(Respond(input, response).value.1, parse).value
  {
    match Respond(input, response)
    case Failure(e) => ErrorOutput(e)
    case Success((topic, reply)) =>
      match AgentJson.ParseReply(reply, parse)
      case Some(explanation) => explanation
      case None => Fallback(Text.Take(reply, 1000), [topic])
  }

  lemma FallbackFields(explanation: string, keyConcepts: seq<Json>)
    ensures PyDict.Keys(Fallback(explanation, keyConcepts).fields) == OutputKeys
    ensures var fs := Fallback(explanation, keyConcepts).fields;
            FieldOr(fs, "explanation", JNull) == JStr(explanation)
            && FieldOr(fs, "key_concepts", JNull) == JList(keyConcepts)
            && FieldOr(fs, "common_mistakes", JNull) == JList([])
            && FieldOr(fs, "tips", JNull) == JList([])
  {
    var fs := Fallback(explanation, keyConcepts).fields;
    PyDict.LookupAt(fs, 0);
    PyDict.LookupAt(fs, 1);
    PyDict.LookupAt(fs, 2);
    PyDict.LookupAt(fs, 3);
  }

  /** An unparsable reply becomes the explanation itself, cut to 1000 characters, with the
      problem's topic as the only key concept and no mistakes or tips. */
  lemma ParseFailureOutput(input: Fields, reply: string, parse: string -> Option<Json>)
    requires Respond(input, Success(reply)).Success?
    requires AgentJson.ParseReply(reply, parse).None?
    ensures var out := Execute(input, Success(reply), parse);
            var topic := FieldOr(FieldOr(input, "parsed_problem", JObject([])).fields, "topic", JStr(""));
            out.JObject? && PyDict.Keys(out.fields) == OutputKeys
            && FieldOr(out.fields, "explanation", JNull) == JStr(reply[..if |reply| < 1000 then |reply| else 1000])
            && FieldOr(out.fields, "key_concepts", JNull) == JList([topic])
            && FieldOr(out.fields, "common_mistakes", JNull) == JList([])
            && FieldOr(out.fields, "tips", JNull) == JList([])
  {
    var topic := Respond(input, Success(reply)).value.0;
    FallbackFields(Text.Take(reply, 1000), [topic]);
  }

  /** Any exception leaves every list empty and names the error in the explanation. */
  lemma ErrorOutputFields(message: string)
    ensures var out := ErrorOutput(message);
            out.JObject? && PyDict.Keys(out.fields) == OutputKeys
            && FieldOr(out.fields, "explanation", JNull) == JStr("Error generating explanation: " + message)
            && FieldOr(out.fields, "key_concepts", JNull) == JList([])
            && FieldOr(out.fields, "common_mistakes", JNull) == JList([])
            && FieldOr(out.fields, "tips", JNull) == JList([])
  {
    FallbackFields("Error generating explanation: " + message, []);
  }

  /** The prompt shows the solution's steps one per line, in order: splitting the block at the
      line breaks gives the steps back. */
  lemma StepsOnePerLine(input: Fields, steps: seq<string>)
    requires |steps| >= 1 && forall i :: 0 <= i < |steps| ==> '\n' !in steps[i]
    requires FieldOr(input, "solution", JObject([]))
             == JObject([("steps", JList(seq(|steps|, i requires 0 <= i < |steps| => JStr(steps[i]))))])
    ensures StepLines(input).Success? && Text.SplitOn(StepLines(input).value, '\n') == steps
  {
    var items := seq(|steps|, i requires 0 <= i < |steps| => JStr(steps[i]));
    PyDict.LookupAt([("steps", JList(items))], 0);
    StrJoinSplit(steps, '\n');
  }

  /** A step that is not a string makes the join raise before the model is called; the agent
      then explains the `TypeError`. */
  lemma NonStringStepIsError(input: Fields, items: seq<Json>, k: nat, response: Result<string, string>, parse: string -> Option<Json>)
    requires k < |items| && !items[k].JStr? && forall i :: 0 <= i < k ==> items[i].JStr?
    requires FieldOr(input, "parsed_problem", JObject([])).JObject?
    requires FieldOr(input, "solution", JObject([])) == JObject([("steps", JList(items))])
    ensures Execute(input, response, parse)
         == ErrorOutput("sequence item " + Text.NatToString(k) + ": expected str instance, " + TypeName(items[k]) + " found")
  {
    PyDict.LookupAt([("steps", JList(items))], 0);
    StrJoinRejects("\n", items, k);
  }
}
