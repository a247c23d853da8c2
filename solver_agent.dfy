/** `SolverAgent.execute`: asks the model for a worked solution, with the first retrieved
    references in the prompt, and runs the SymPy code the model attached. */
module SolverAgent {
  import opened Wrappers
  import opened PyJson
  import PyDict
  import Text
  import AgentJson

  /** What `exec` of the model's SymPy code leaves behind: the `str()` of the `result` variable,
      no `result` variable at all, or the message of the exception it raised. */
  datatype SympyOutcome = Assigned(shown: string) | NoResultVariable | Raised(message: string)

  const NoResultMessage: string := "No result variable defined"

  /** `_execute_sympy_tool`: never raises; every outcome becomes a string. */
  function SympyTool(outcome: SympyOutcome): (r: string)
    ensures outcome.Assigned? ==> r == outcome.shown
    ensures outcome.NoResultVariable? ==> r == NoResultMessage
    ensures outcome.Raised? ==> r == "Error executing code: " + outcome.message
  {
    match outcome
    case Assigned(shown) => shown
    case NoResultVariable => NoResultMessage
    case Raised(m) => "Error executing code: " + m
  }

  /** One reference of the prompt: `f"Reference from {doc['source']}:\n{doc['content'][:500]}"`. */
  function DocEntry(doc: Json, show: Json -> string): Result<string, string>
  {
    var source :- Subscript(doc, "source");
    var content :- Subscript(doc, "content");
    var snippet :- SliceTo(content, 500);
    Success("Reference from " + Str(source, show) + ":\n" + Str(snippet, show))
  }

  /** The list comprehension over the references: every entry in order, or the first failure. */
  function DocEntries(docs: seq<Json>, show: Json -> string): (r: Result<seq<string>, string>)
    ensures r.Success? <==> forall i :: 0 <= i < |docs| ==> DocEntry(docs[i], show).Success?
    ensures r.Success? ==> |r.value| == |docs| && forall i :: 0 <= i < |docs| ==> DocEntry(docs[i], show) == Success(r.value[i])
  {
    if docs == [] then Success([])
    else
      var first :- DocEntry(docs[0], show);
      var rest :- DocEntries(docs[1..], show);
      assert forall i :: 1 <= i < |docs| ==> docs[i] == docs[1..][i - 1];
      Success([first] + rest)
  }

  /** The reference knowledge of the prompt: `"\n\n".join(...)` over `rag_context[:2]`. */
  function SolverContext(ragContext: Json, show: Json -> string): Result<string, string>
  {
    var firstTwo :- SliceTo(ragContext, 2);
    var entries :- DocEntries(Iterate(firstTwo).GetOr([]), show);
    Success(Text.Join(entries, "\n\n"))
  }

  /** A retrieved reference with a string source and a string content. */
  predicate WellFormedDoc(doc: Json)
  {
    doc.JObject?
    && PyDict.Lookup(doc.fields, "source").Some? && PyDict.Lookup(doc.fields, "source").value.JStr?
    && PyDict.Lookup(doc.fields, "content").Some? && PyDict.Lookup(doc.fields, "content").value.JStr?
  }

  /** The reference text for a well-formed reference. */
  function Reference(doc: Json): string
    requires WellFormedDoc(doc)
  {
    "Reference from " + PyDict.Lookup(doc.fields, "source").value.s + ":\n"
    + Text.Take(PyDict.Lookup(doc.fields, "content").value.s, 500)
  }

  /** The context holds the first two references only, each with its content cut to 500
      characters, separated by a blank line; later references never matter. */
  lemma {:induction false} ContextOfFirstTwo(docs: seq<Json>, show: Json -> string)
    requires forall i :: 0 <= i < |docs| && i < 2 ==> WellFormedDoc(docs[i])
    ensures var n := if |docs| < 2 then |docs| else 2;
            SolverContext(JList(docs), show)
            == Success(Text.Join(seq(n, i requires 0 <= i < n => Reference(docs[i])), "\n\n"))
  {
    var firstTwo := Text.Take(docs, 2);
    var n := |firstTwo|;
    forall i | 0 <= i < n
      ensures DocEntry(firstTwo[i], show) == Success(Reference(docs[i]))
    {
      var doc := firstTwo[i];
      assert doc == docs[i];
      PyDict.LookupFound(doc.fields, "source");
      PyDict.LookupFound(doc.fields, "content");
    }
    var entries := DocEntries(firstTwo, show);
    assert entries.Success?;
    assert entries.value == seq(n, i requires 0 <= i < n => Reference(docs[i]));
  }

  /** Every value the prompt reads before the model is called: a parsed problem or strategy that
      is not a dict, a problem text that does not slice, or a malformed reference raises. */
  function Respond(input: Fields, response: Result<string, string>, show: Json -> string): Result<string, string>
  {
    var parsed := FieldOr(input, "parsed_problem", JObject([]));
    var strategy := FieldOr(input, "strategy", JObject([]));
    var ragContext := FieldOr(input, "rag_context", JList([]));
    var problemText :- Get(parsed, "problem_text", JStr(""));
    var topic :- Get(parsed, "topic", JStr(""));
    var logged :- SliceTo(problemText, 100);
    var context :- SolverContext(ragContext, show);
    var approach :- Get(strategy, "approach", JStr("step-by-step solving"));
    response
  }

  /** `if 'sympy_code' in output and output['sympy_code']: output['sympy_result'] = ...`;
      the `in` and the subscript raise on outputs that do not support them. */
  function WithSympy(output: Json, exec: Json -> SympyOutcome): Result<Json, string>
  {
    var hasCode :- In("sympy_code", output);
    if !hasCode then Success(output)
    else
      var code :- Subscript(output, "sympy_code");
      if !Truthy(code) then Success(output)
      else Success(JObject(PyDict.Upsert(output.fields, "sympy_result", JStr(SympyTool(exec(code))))))
  }

  const OutputKeys: seq<string> := ["steps", "final_answer", "reasoning", "confidence"]

  function Fallback(steps: seq<Json>, finalAnswer: string, reasoning: string, confidence: real): Json
  {
    JObject([("steps", JList(steps)), ("final_answer", JStr(finalAnswer)),
             ("reasoning", JStr(reasoning)), ("confidence", JFloat(confidence))])
  }

  function ErrorOutput(message: string): Json
  {
    Fallback([], "Error occurred during solving", "Error: " + message, 0.0)
  }

  /** `execute`: an exception before or during the call gives the error output; a reply that
      does not parse gives a single-step fallback; a parsed reply goes through the sympy step,
      whose exception also gives the error output. */
  function Execute(input: Fields, response: Result<string, string>, parse: string -> Option<Json>,
                   exec: Json -> SympyOutcome, show: Json -> string): (out: Json)
    ensures Respond(input, response, show).Failure? ==> out == ErrorOutput(Respond(input, response, show).error)
    ensures Respond(input, response, show).Success?
            && AgentJson.ParseReply(Respond(input, response, show).value, parse).None? ==>
              out == Fallback([JStr("Failed to parse solution steps")], "Error in solving",
                              Text.Take(Respond(input, response, show).value, 500), 0.3)
    ensures Respond(input, response, show).Success?
            && AgentJson.ParseReply(Respond(input, response, show).value, parse).Some? ==>
              var output := AgentJson.ParseReply(Respond(input, response, show).value, parse).value;
              (WithSympy(output, exec).Success? ==> out == WithSympy(output, exec).value)
              && (WithSympy(output, exec).Failure? ==> out == ErrorOutput(WithSympy(output, exec).error))
  {
    match Respond(input, response, show)
    case Failure(e) => ErrorOutput(e)
    case Success(reply) =>
      match AgentJson.ParseReply(reply, parse)
      case None => Fallback([JStr("Failed to parse solution steps")], "Error in solving", Text.Take(reply, 500), 0.3)
      case Some(output) =>
        match WithSympy(output, exec)
        case Success(o) => o
        case Failure(e) => ErrorOutput(e)
  }

  /** The tool's result is stored under `sympy_result`; every other key keeps its value and its
      place, and `sympy_result` is appended if it was new. */
  lemma SympyResultStored(fields: Fields, exec: Json -> SympyOutcome)
    requires PyDict.Lookup(fields, "sympy_code").Some? && Truthy(PyDict.Lookup(fields, "sympy_code").value)
    ensures var r := WithSympy(JObject(fields), exec);
            var code := PyDict.Lookup(fields, "sympy_code").value;
            r.Success? && r.value.JObject?
            && PyDict.Lookup(r.value.fields, "sympy_result") == Some(JStr(SympyTool(exec(code))))
            && (forall k :: k != "sympy_result" ==> PyDict.Lookup(r.value.fields, k) == PyDict.Lookup(fields, k))
            && PyDict.Keys(r.value.fields)
               == if "sympy_result" in PyDict.Keys(fields) then PyDict.Keys(fields) else PyDict.Keys(fields) + ["sympy_result"]
  {
    PyDict.LookupFound(fields, "sympy_code");
    var code := PyDict.Lookup(fields, "sympy_code").value;
    var v := JStr(SympyTool(exec(code)));
    PyDict.LookupUpsertSame(fields, "sympy_result", v);
    forall k | k != "sympy_result"
      ensures PyDict.Lookup(PyDict.Upsert(fields, "sympy_result", v), k) == PyDict.Lookup(fields, k)
    {
      PyDict.LookupUpsertOther(fields, "sympy_result", v, k);
    }
    PyDict.KeysUpsert(fields, "sympy_result", v);
  }

  /** Without a truthy `sympy_code` a parsed dict is returned as it is. */
  lemma NoSympyCodeUnchanged(fields: Fields, exec: Json -> SympyOutcome)
    requires PyDict.Lookup(fields, "sympy_code").None? || !Truthy(PyDict.Lookup(fields, "sympy_code").value)
    ensures WithSympy(JObject(fields), exec) == Success(JObject(fields))
  {
    PyDict.LookupFound(fields, "sympy_code");
  }

  lemma FallbackFields(steps: seq<Json>, finalAnswer: string, reasoning: string, confidence: real)
    ensures PyDict.Keys(Fallback(steps, finalAnswer, reasoning, confidence).fields) == OutputKeys
    ensures var fs := Fallback(steps, finalAnswer, reasoning, confidence).fields;
            FieldOr(fs, "steps", JNull) == JList(steps)
            && FieldOr(fs, "final_answer", JNull) == JStr(finalAnswer)
            && FieldOr(fs, "reasoning", JNull) == JStr(reasoning)
            && FieldOr(fs, "confidence", JNull) == JFloat(confidence)
  {
    var fs := Fallback(steps, finalAnswer, reasoning, confidence).fields;
    PyDict.LookupAt(fs, 0);
    PyDict.LookupAt(fs, 1);
    PyDict.LookupAt(fs, 2);
    PyDict.LookupAt(fs, 3);
  }

  /** An unparsable reply gives one explanatory step, the reply's first 500 characters as the
      reasoning and a confidence of 0.3. */
  lemma ParseFailureOutput(input: Fields, reply: string, parse: string -> Option<Json>,
                           exec: Json -> SympyOutcome, show: Json -> string)
    requires Respond(input, Success(reply), show) == Success(reply)
    requires AgentJson.ParseReply(reply, parse).None?
    ensures var out := Execute(input, Success(reply), parse, exec, show);
            out.JObject? && PyDict.Keys(out.fields) == OutputKeys
            && FieldOr(out.fields, "steps", JNull) == JList([JStr("Failed to parse solution steps")])
            && FieldOr(out.fields, "reasoning", JNull) == JStr(reply[..if |reply| < 500 then |reply| else 500])
            && FieldOr(out.fields, "confidence", JNull) == JFloat(0.3)
  {
    FallbackFields([JStr("Failed to parse solution steps")], "Error in solving", Text.Take(reply, 500), 0.3);
  }

  /** Any exception (before the call, from the model, or from `in`/`[...]` on an odd output)
      gives no steps and a confidence of 0.0. */
  lemma ErrorOutputFields(message: string)
    ensures var out := ErrorOutput(message);
            out.JObject? && PyDict.Keys(out.fields) == OutputKeys
            && FieldOr(out.fields, "steps", JNull) == JList([])
            && FieldOr(out.fields, "final_answer", JNull) == JStr("Error occurred during solving")
            && FieldOr(out.fields, "reasoning", JNull) == JStr("Error: " + message)
            && FieldOr(out.fields, "confidence", JNull) == JFloat(0.0)
  {
    FallbackFields([], "Error occurred during solving", "Error: " + message, 0.0);
  }

  /** A parsed string that mentions `sympy_code` passes the `in` test and then fails on the
      subscript, so the agent answers with its error output. */
  lemma StringOutputWithCodeIsError(s: string, exec: Json -> SympyOutcome)
    requires Text.Contains(s, "sympy_code")
    ensures WithSympy(JStr(s), exec) == Failure("string indices must be integers, not 'str'")
  {
  }
}
