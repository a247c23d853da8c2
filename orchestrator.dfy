/** `MathMentorOrchestrator` of the backend: runs the seven stages of a solve, recording each in
    the execution trace, stores the interaction once the explainer is done, and turns any
    exception into a quota or an error answer. The agents and the retriever are oracles: each
    gives its output or the message of the exception it raised. */
module Orchestrator {
  import opened Wrappers
  import opened PyJson
  import PyDict
  import Text
  import Memory
  import InputHandlers

  /** One entry of `execution_trace`: its stage, its status, and the other keys it carries. */
  datatype TraceEntry = TraceEntry(stage: string, status: string, details: Fields)

  const ParserStage: string := "Parser Agent"
  const MemoryStage: string := "Memory Retrieval"
  const RagStage: string := "RAG Retrieval"
  const RouterStage: string := "Intent Router Agent"
  const SolverStage: string := "Solver Agent"
  const VerifierStage: string := "Verifier Agent"
  const ExplainerStage: string := "Explainer Agent"
  const InputStage: string := "Input Processing"

  function Started(stage: string): TraceEntry
  {
    TraceEntry(stage, "started", [])
  }

  function Completed(stage: string, details: Fields): TraceEntry
  {
    TraceEntry(stage, "completed", details)
  }

  const ClarificationNotice: TraceEntry :=
    TraceEntry("Clarification Notice", "warning",
               [("message", JStr("Problem may be ambiguous but proceeding with best interpretation"))])

  const QuotaEntry: TraceEntry := TraceEntry("Error", "quota_exceeded", [("error", JStr("API quota exceeded"))])

  function FailedEntry(message: string): TraceEntry
  {
    TraceEntry("Error", "failed", [("error", JStr(message))])
  }

  /** The agents' `execute` and the retriever's `retrieve`. */
  datatype Stages = Stages(
    parse: Fields -> Result<Json, string>,
    route: Fields -> Result<Json, string>,
    solve: Fields -> Result<Json, string>,
    verify: Fields -> Result<Json, string>,
    explain: Fields -> Result<Json, string>,
    retrieve: Json -> Result<seq<Json>, string>)

  /** One call of an agent or of the retriever. */
  function Ask<I, O>(stage: I -> O, input: I): O
  {
    stage(input)
  }

  function ParserInput(rawText: string, inputType: string): Fields
  {
    [("raw_text", JStr(rawText)), ("input_type", JStr(inputType))]
  }

  /** How far the stages got: the trace so far and the exception that stopped them, or the trace
      and every stage's output. */
  datatype Run =
    | Stopped(trace: seq<TraceEntry>, error: string)
    | Finished(trace: seq<TraceEntry>, parsed: Fields, flag: Json, similar: seq<Json>, rag: seq<Json>,
               strategy: Json, solution: Json, verification: Json, explanation: Json)

  /** The stages of `solve_problem` up to the explainer, over the interaction log `log`; each
      stage below takes the trace so far and the outputs of the stages before it. */
  function Pipeline(rawText: string, inputType: string, stages: Stages, log: Option<seq<Json>>): Run
  {
    var t := [Started(ParserStage)];
    match Ask(stages.parse, ParserInput(rawText, inputType))
    case Failure(e) => Stopped(t, e)
    case Success(parsed) => AfterParser(t + [Completed(ParserStage, [("output", parsed)])], parsed, stages, log)
  }

  /** The clarification check and the memory lookup, which raise only on a parser output that is
      not a dict. */
  function AfterParser(t: seq<TraceEntry>, parsed: Json, stages: Stages, log: Option<seq<Json>>): Run
  {
    match Get(parsed, "needs_clarification", JBool(false))
    case Failure(e) => Stopped(t, e)
    case Success(flag) =>
      var fs := parsed.fields;
      var similar := Memory.Records(Memory.SimilarScored(log, FieldOr(fs, "problem_text", JStr("")), FieldOr(fs, "topic", JStr("")), 3));
      Retrieval((if Truthy(flag) then t + [ClarificationNotice] else t)
                  + [Completed(MemoryStage, [("similar_found", JInt(|similar|))])] + [Started(RagStage)],
                fs, flag, similar, stages)
  }

  function Retrieval(t: seq<TraceEntry>, fs: Fields, flag: Json, similar: seq<Json>, stages: Stages): Run
  {
    match Ask(stages.retrieve, FieldOr(fs, "problem_text", JStr("")))
    case Failure(e) => Stopped(t, e)
    case Success(rag) =>
      Routing(t + [Completed(RagStage, [("documents_retrieved", JInt(|rag|))])] + [Started(RouterStage)],
              fs, flag, similar, rag, stages)
  }

  function Routing(t: seq<TraceEntry>, fs: Fields, flag: Json, similar: seq<Json>, rag: seq<Json>, stages: Stages): Run
  {
    match Ask(stages.route, [("parsed_problem", JObject(fs))])
    case Failure(e) => Stopped(t, e)
    case Success(strategy) =>
      Solving(t + [Completed(RouterStage, [("output", strategy)])] + [Started(SolverStage)], fs, flag, similar, rag, strategy, stages)
  }

  function Solving(t: seq<TraceEntry>, fs: Fields, flag: Json, similar: seq<Json>, rag: seq<Json>, strategy: Json,
                   stages: Stages): Run
  {
    match Ask(stages.solve, [("parsed_problem", JObject(fs)), ("strategy", strategy), ("rag_context", JList(rag))])
    case Failure(e) => Stopped(t, e)
    case Success(solution) =>
      match Get(solution, "confidence", JFloat(0.0))
      case Failure(e) => Stopped(t, e)
      case Success(confidence) =>
        Verifying(t + [Completed(SolverStage, [("confidence", confidence)])] + [Started(VerifierStage)],
                  fs, flag, similar, rag, strategy, solution, stages)
  }

  function Verifying(t: seq<TraceEntry>, fs: Fields, flag: Json, similar: seq<Json>, rag: seq<Json>, strategy: Json,
                     solution: Json, stages: Stages): Run
  {
    match Ask(stages.verify, [("parsed_problem", JObject(fs)), ("solution", solution)])
    case Failure(e) => Stopped(t, e)
    case Success(verification) =>
      Explaining(t + [Completed(VerifierStage, [("output", verification)])] + [Started(ExplainerStage)],
                 fs, flag, similar, rag, strategy, solution, verification, stages)
  }

  function Explaining(t: seq<TraceEntry>, fs: Fields, flag: Json, similar: seq<Json>, rag: seq<Json>, strategy: Json,
                      solution: Json, verification: Json, stages: Stages): Run
  {
    match Ask(stages.explain, [("parsed_problem", JObject(fs)), ("solution", solution), ("verification", verification)])
    case Failure(e) => Stopped(t, e)
    case Success(explanation) =>
      Finished(t + [Completed(ExplainerStage, [])], fs, flag, similar, rag, strategy, solution, verification, explanation)
  }

  /** `[p.get('interaction_id') for p in similar_problems]` */
  function SimilarIds(similar: seq<Json>): (r: Result<seq<Json>, string>)
    ensures r.Success? <==> forall i :: 0 <= i < |similar| ==> similar[i].JObject?
    ensures r.Success? ==> |r.value| == |similar|
                           && forall i :: 0 <= i < |similar| ==> r.value[i] == FieldOr(similar[i].fields, "interaction_id", JNull)
  {
    if similar == [] then Success([])
    else
      var first :- Get(similar[0], "interaction_id", JNull);
      var rest :- SimilarIds(similar[1..]);
      assert forall i :: 1 <= i < |similar| ==> similar[i] == similar[1..][i - 1];
      Success([first] + rest)
  }

  /** `{"source": doc["source"], "content": doc["content"][:200]}` */
  function RagSource(doc: Json): Result<Json, string>
  {
    var source :- Subscript(doc, "source");
    var content :- Subscript(doc, "content");
    var snippet :- SliceTo(content, 200);
    Success(JObject([("source", source), ("content", snippet)]))
  }

  /** `rag_sources`: one entry per document, in order, or the first failure. */
  function RagSources(docs: seq<Json>): (r: Result<seq<Json>, string>)
    ensures r.Success? <==> forall i :: 0 <= i < |docs| ==> RagSource(docs[i]).Success?
    ensures r.Success? ==> |r.value| == |docs| && forall i :: 0 <= i < |docs| ==> RagSource(docs[i]) == Success(r.value[i])
  {
    if docs == [] then Success([])
    else
      var first :- RagSource(docs[0]);
      var rest :- RagSources(docs[1..]);
      assert forall i :: 1 <= i < |docs| ==> docs[i] == docs[1..][i - 1];
      Success([first] + rest)
  }

  /** The record handed to `store_interaction`. */
  function Interaction(now: string, rawText: string, inputType: string, parsed: Json, rag: seq<Json>,
                       solution: Json, verification: Json, explanation: Json, ids: seq<Json>): Fields
  {
    [("timestamp", JStr(now)), ("raw_input", JStr(rawText)), ("input_type", JStr(inputType)),
     ("parsed_problem", parsed), ("retrieved_context", JList(rag)), ("solution", solution),
     ("verification", verification), ("explanation", explanation), ("similar_problems", JList(ids))]
  }

  /** The record of a finished run. */
  function RunRecord(now: string, rawText: string, inputType: string, run: Run, ids: seq<Json>): Fields
    requires run.Finished?
  {
    Interaction(now, rawText, inputType, JObject(run.parsed), run.rag, run.solution, run.verification, run.explanation, ids)
  }

  datatype SolveResult =
    | Solved(interactionId: string, parsedProblem: Json, strategy: Json, solution: Json, verification: Json,
             explanation: Json, ragSources: seq<Json>, similarProblems: seq<Json>, trace: seq<TraceEntry>,
             requiresHitl: Json, needsClarification: Json)
    | QuotaExceeded(trace: seq<TraceEntry>)
    | Failed(message: string, trace: seq<TraceEntry>)

  const QuotaMessage: string :=
    "\U{201A}\U{F6}\U{2020}\U{D4}\U{220F}\U{E8} **API Quota Exceeded**\n\nYou've reached the free tier limit of **20 requests per day**.\n\n**Options:**\n1. \U{201A}\U{E8}\U{221E} Wait for the quota to reset (quotas reset automatically)\n2. \U{F8FF}\U{FC}\U{EE}\U{EB} Get a new API key at https://aistudio.google.com/apikey\n3. \U{F8FF}\U{FC}\U{ED}\U{2265} Upgrade to a paid plan at https://ai.google.dev/pricing\n\n**Monitor your usage:** https://ai.dev/usage?tab=rate-limit"

  /** The `message` key of an error answer: the quota notice, or the exception's text. */
  function Message(r: SolveResult): string
    requires !r.Solved?
  {
    if r.QuotaExceeded? then QuotaMessage else r.message
  }

  /** `"quota" in error_msg.lower() or "429" in error_msg` */
  predicate IsQuotaError(message: string)
  {
    Text.Contains(Text.Lower(message), "quota") || Text.Contains(message, "429")
  }

  /** The answer to an exception, with the trace it leaves. */
  function Classify(trace: seq<TraceEntry>, message: string): SolveResult
  {
    if IsQuotaError(message) then QuotaExceeded(trace + [QuotaEntry])
    else Failed(message, trace + [FailedEntry(message)])
  }

  /** The rest of `solve_problem` after the stages: the store, then the result, whose
      `rag_sources` and `requires_hitl` can still raise. Gives the answer and the new log. */
  function Conclude(run: Run, now: string, rawText: string, inputType: string, log: Option<seq<Json>>,
                    md5Hex: string -> string, show: Json -> string, writeOk: bool): (SolveResult, Option<seq<Json>>)
  {
    match run
    case Stopped(t, e) => (Classify(t, e), log)
    case Finished(t, parsed, flag, similar, rag, strategy, solution, verification, explanation) =>
      match SimilarIds(similar)
      case Failure(e) => (Classify(t, e), log)
      case Success(ids) =>
        var record := RunRecord(now, rawText, inputType, run, ids);
        var id := if writeOk then Memory.InteractionId(record, md5Hex, show) else "";
        var newLog := if writeOk then Some(log.GetOr([]) + [JObject(Memory.WithId(record, md5Hex, show))]) else log;
        match RagSources(rag)
        case Failure(e) => (Classify(t, e), newLog)
        case Success(sources) =>
          match Get(verification, "requires_hitl", JBool(false))
          case Failure(e) => (Classify(t, e), newLog)
          case Success(hitl) =>
            (Solved(id, JObject(parsed), strategy, solution, verification, explanation, sources, similar, t, hitl, flag),
             newLog)
  }

  /** `solve_problem`: the answer and the interaction log afterwards. */
  function Solve(rawText: string, inputType: string, now: string, stages: Stages, log: Option<seq<Json>>,
                 md5Hex: string -> string, show: Json -> string, writeOk: bool): (SolveResult, Option<seq<Json>>)
  {
    Conclude(Pipeline(rawText, inputType, stages, log), now, rawText, inputType, log, md5Hex, show, writeOk)
  }

  // ---------------------------------------------------------------------------------------
  // Properties of a solve
  // ---------------------------------------------------------------------------------------

  /** The trace of a finished run: every stage started and completed in order, with the
      clarification notice after the parser exactly when the parser's flag is truthy. */
  function SuccessTrace(parsed: Json, flag: Json, similarFound: nat, docs: nat, strategy: Json,
                        confidence: Json, verification: Json): seq<TraceEntry>
  {
    (if Truthy(flag) then [Started(ParserStage)] + [Completed(ParserStage, [("output", parsed)])] + [ClarificationNotice]
     else [Started(ParserStage)] + [Completed(ParserStage, [("output", parsed)])])
    + [Completed(MemoryStage, [("similar_found", JInt(similarFound))])]
    + [Started(RagStage)] + [Completed(RagStage, [("documents_retrieved", JInt(docs))])]
    + [Started(RouterStage)] + [Completed(RouterStage, [("output", strategy)])]
    + [Started(SolverStage)] + [Completed(SolverStage, [("confidence", confidence)])]
    + [Started(VerifierStage)] + [Completed(VerifierStage, [("output", verification)])]
    + [Started(ExplainerStage)] + [Completed(ExplainerStage, [])]
  }

  lemma NoticeInSuccessTrace(parsed: Json, flag: Json, similarFound: nat, docs: nat, strategy: Json,
                              confidence: Json, verification: Json)
    ensures ClarificationNotice in SuccessTrace(parsed, flag, similarFound, docs, strategy, confidence, verification)
            <==> Truthy(flag)
  {
    var st := SuccessTrace(parsed, flag, similarFound, docs, strategy, confidence, verification);
    if Truthy(flag) {
      assert st[2] == ClarificationNotice;
    }
  }

  /** A run that reaches the explainer has the trace of every stage in order, with the notice
      exactly when the parser's `needs_clarification` is truthy. */
  lemma FinishedTrace(rawText: string, inputType: string, stages: Stages, log: Option<seq<Json>>)
    requires Pipeline(rawText, inputType, stages, log).Finished?
    ensures var run := Pipeline(rawText, inputType, stages, log);
            run.solution.JObject?
            && run.trace == SuccessTrace(JObject(run.parsed), run.flag, |run.similar|, |run.rag|, run.strategy,
                                         FieldOr(run.solution.fields, "confidence", JFloat(0.0)), run.verification)
            && run.flag == FieldOr(run.parsed, "needs_clarification", JBool(false))
            && run.similar == Memory.Records(Memory.SimilarScored(log, FieldOr(run.parsed, "problem_text", JStr("")),
                                                                  FieldOr(run.parsed, "topic", JStr("")), 3))
  {
    var run := Pipeline(rawText, inputType, stages, log);
    var parsed := Ask(stages.parse, ParserInput(rawText, inputType)).value;
    var t1 := [Started(ParserStage)] + [Completed(ParserStage, [("output", parsed)])];
    assert run == AfterParser(t1, parsed, stages, log);
    var flag := Get(parsed, "needs_clarification", JBool(false)).value;
    var fs := parsed.fields;
    var similar := Memory.Records(Memory.SimilarScored(log, FieldOr(fs, "problem_text", JStr("")), FieldOr(fs, "topic", JStr("")), 3));
    var t3 := (if Truthy(flag) then t1 + [ClarificationNotice] else t1)
                 + [Completed(MemoryStage, [("similar_found", JInt(|similar|))])] + [Started(RagStage)];
    assert run == Retrieval(t3, fs, flag, similar, stages);
    var rag := Ask(stages.retrieve, FieldOr(fs, "problem_text", JStr(""))).value;
    var t4 := t3 + [Completed(RagStage, [("documents_retrieved", JInt(|rag|))])] + [Started(RouterStage)];
    assert run == Routing(t4, fs, flag, similar, rag, stages);
    var strategy := Ask(stages.route, [("parsed_problem", JObject(fs))]).value;
    var t5 := t4 + [Completed(RouterStage, [("output", strategy)])] + [Started(SolverStage)];
    assert run == Solving(t5, fs, flag, similar, rag, strategy, stages);
    var solution := Ask(stages.solve, [("parsed_problem", JObject(fs)), ("strategy", strategy), ("rag_context", JList(rag))]).value;
    var confidence := Get(solution, "confidence", JFloat(0.0)).value;
    var t6 := t5 + [Completed(SolverStage, [("confidence", confidence)])] + [Started(VerifierStage)];
    assert run == Verifying(t6, fs, flag, similar, rag, strategy, solution, stages);
    var verification := Ask(stages.verify, [("parsed_problem", JObject(fs)), ("solution", solution)]).value;
    var t7 := t6 + [Completed(VerifierStage, [("output", verification)])] + [Started(ExplainerStage)];
    assert run == Explaining(t7, fs, flag, similar, rag, strategy, solution, verification, stages);
    assert run.trace == t7 + [Completed(ExplainerStage, [])];
  }

  /** A success answer is built from a finished run: its trace, its outputs and its flag. */
  lemma ConcludeSolved(run: Run, now: string, rawText: string, inputType: string, log: Option<seq<Json>>,
                       md5Hex: string -> string, show: Json -> string, writeOk: bool)
    requires Conclude(run, now, rawText, inputType, log, md5Hex, show, writeOk).0.Solved?
    ensures var r := Conclude(run, now, rawText, inputType, log, md5Hex, show, writeOk).0;
            run.Finished? && r.trace == run.trace && r.parsedProblem == JObject(run.parsed) && r.strategy == run.strategy
            && r.solution == run.solution && r.verification == run.verification && r.similarProblems == run.similar
            && |r.ragSources| == |run.rag| && r.needsClarification == run.flag
  {
  }

  /** A successful solve reports the stages in order and never stops for clarification: the
      notice appears exactly when the flag is truthy, and the flag is copied into the answer. */
  lemma SolvedTrace(rawText: string, inputType: string, now: string, stages: Stages, log: Option<seq<Json>>,
                    md5Hex: string -> string, show: Json -> string, writeOk: bool)
    requires Solve(rawText, inputType, now, stages, log, md5Hex, show, writeOk).0.Solved?
    ensures var r := Solve(rawText, inputType, now, stages, log, md5Hex, show, writeOk).0;
            r.parsedProblem.JObject? && r.solution.JObject?
            && r.trace == SuccessTrace(r.parsedProblem, r.needsClarification, |r.similarProblems|, |r.ragSources|,
                                       r.strategy, FieldOr(r.solution.fields, "confidence", JFloat(0.0)), r.verification)
            && (ClarificationNotice in r.trace <==> Truthy(r.needsClarification))
            && r.needsClarification == FieldOr(r.parsedProblem.fields, "needs_clarification", JBool(false))
  {
    var run := Pipeline(rawText, inputType, stages, log);
    var r := Solve(rawText, inputType, now, stages, log, md5Hex, show, writeOk).0;
    ConcludeSolved(run, now, rawText, inputType, log, md5Hex, show, writeOk);
    FinishedTrace(rawText, inputType, stages, log);
    NoticeInSuccessTrace(r.parsedProblem, r.needsClarification, |r.similarProblems|, |r.ragSources|,
                         r.strategy, FieldOr(r.solution.fields, "confidence", JFloat(0.0)), r.verification);
  }

  /** The interaction is stored once, at the end of the log, only when the stages all finished
      and the ids of the similar problems were read (and the write succeeded); a run that stopped
      leaves the log as it was. */
  lemma StoredOnlyAfterExplainer(run: Run, now: string, rawText: string, inputType: string, log: Option<seq<Json>>,
                                 md5Hex: string -> string, show: Json -> string, writeOk: bool)
    ensures var newLog := Conclude(run, now, rawText, inputType, log, md5Hex, show, writeOk).1;
            (run.Stopped? || !writeOk ==> newLog == log)
            && (run.Finished? && writeOk && SimilarIds(run.similar).Success? ==>
                  newLog == Some(log.GetOr([]) + [JObject(Memory.WithId(RunRecord(now, rawText, inputType, run, SimilarIds(run.similar).value), md5Hex, show))]))
  {
  }

  /** Every record the memory lookup returns is a dict, so reading the ids of the similar
      problems never raises. */
  lemma SimilarIdsReadable(log: Option<seq<Json>>, problemText: Json, topic: Json, n: nat)
    ensures SimilarIds(Memory.Records(Memory.SimilarScored(log, problemText, topic, n))).Success?
  {
    if log.Some? && problemText.JStr? && Memory.Candidates(log.value, Memory.Keywords(problemText.s), topic).Some? {
      Memory.SimilarSpec(log.value, problemText.s, topic, n);
      var found := Memory.SimilarScored(log, problemText, topic, n);
      assert forall i :: 0 <= i < |found| ==> found[i] in found;
    }
  }

  /** A run that reaches the explainer always stores its interaction when the write succeeds. */
  lemma FinishedRunIsStored(rawText: string, inputType: string, now: string, stages: Stages, log: Option<seq<Json>>,
                            md5Hex: string -> string, show: Json -> string)
    requires Pipeline(rawText, inputType, stages, log).Finished?
    ensures var run := Pipeline(rawText, inputType, stages, log);
            SimilarIds(run.similar).Success?
            && Solve(rawText, inputType, now, stages, log, md5Hex, show, true).1
               == Some(log.GetOr([]) + [JObject(Memory.WithId(RunRecord(now, rawText, inputType, run, SimilarIds(run.similar).value), md5Hex, show))])
  {
    var run := Pipeline(rawText, inputType, stages, log);
    FinishedTrace(rawText, inputType, stages, log);
    SimilarIdsReadable(log, FieldOr(run.parsed, "problem_text", JStr("")), FieldOr(run.parsed, "topic", JStr("")), 3);
    StoredOnlyAfterExplainer(run, now, rawText, inputType, log, md5Hex, show, true);
  }

  /** A solve answered as a success has stored its interaction (when the write succeeded), and
      the answer's id is the stored record's. */
  lemma SolvedWasStored(run: Run, now: string, rawText: string, inputType: string, log: Option<seq<Json>>,
                        md5Hex: string -> string, show: Json -> string, writeOk: bool)
    requires Conclude(run, now, rawText, inputType, log, md5Hex, show, writeOk).0.Solved?
    ensures var (r, newLog) := Conclude(run, now, rawText, inputType, log, md5Hex, show, writeOk);
            var old_ := log.GetOr([]);
            (writeOk ==> newLog.Some? && |newLog.value| == |old_| + 1 && newLog.value[..|old_|] == old_
                         && Memory.FirstWithId(newLog.value[|old_|..], r.interactionId) == Some(newLog.value[|old_|]))
            && (!writeOk ==> newLog == log && r.interactionId == "")
  {
    var (r, newLog) := Conclude(run, now, rawText, inputType, log, md5Hex, show, writeOk);
    if writeOk {
      var record := RunRecord(now, rawText, inputType, run, SimilarIds(run.similar).value);
      Memory.WithIdFields(record, md5Hex, show);
      var old_ := log.GetOr([]);
      assert newLog.value[|old_|..] == [] + [JObject(Memory.WithId(record, md5Hex, show))];
      Memory.AppendedIsFound([], Memory.WithId(record, md5Hex, show), r.interactionId);
    }
  }

  /** The store comes before the result is built: a retrieved document without a `source` makes
      the solve answer with an error although the interaction was already appended. */
  lemma ErrorAfterStore(run: Run, now: string, rawText: string, inputType: string, log: Option<seq<Json>>,
                        md5Hex: string -> string, show: Json -> string)
    requires run.Finished? && SimilarIds(run.similar).Success?
    requires exists i :: 0 <= i < |run.rag| && run.rag[i] == JObject([("content", JStr(""))])
    ensures var (r, newLog) := Conclude(run, now, rawText, inputType, log, md5Hex, show, true);
            !r.Solved? && newLog.Some? && |newLog.value| == |log.GetOr([])| + 1
  {
    var i :| 0 <= i < |run.rag| && run.rag[i] == JObject([("content", JStr(""))]);
    assert RagSource(run.rag[i]).Failure?;
  }

  /** The answer's `requires_hitl` is the verifier's flag, `False` when it gave none. */
  lemma RequiresHitlIsVerifiers(run: Run, now: string, rawText: string, inputType: string, log: Option<seq<Json>>,
                                md5Hex: string -> string, show: Json -> string, writeOk: bool)
    requires Conclude(run, now, rawText, inputType, log, md5Hex, show, writeOk).0.Solved?
    ensures var r := Conclude(run, now, rawText, inputType, log, md5Hex, show, writeOk).0;
            r.verification.JObject? && r.requiresHitl == FieldOr(r.verification.fields, "requires_hitl", JBool(false))
  {
  }

  /** A retrieved document with a string source and string content. */
  predicate WellFormedDoc(doc: Json)
  {
    doc.JObject?
    && PyDict.Lookup(doc.fields, "source").Some?
    && PyDict.Lookup(doc.fields, "content").Some? && PyDict.Lookup(doc.fields, "content").value.JStr?
  }

  /** The `rag_sources` entry of a well-formed document: its source, and its content cut to 200
      characters. */
  function SourceEntry(doc: Json): Json
    requires WellFormedDoc(doc)
  {
    JObject([("source", PyDict.Lookup(doc.fields, "source").value),
             ("content", JStr(Text.Take(PyDict.Lookup(doc.fields, "content").value.s, 200)))])
  }

  lemma RagSourceOf(doc: Json)
    requires WellFormedDoc(doc)
    ensures RagSource(doc) == Success(SourceEntry(doc))
  {
    PyDict.LookupFound(doc.fields, "source");
    PyDict.LookupFound(doc.fields, "content");
  }

  /** For well-formed documents `rag_sources` has one entry per document, in order, with its
      source and its content cut to 200 characters. */
  lemma RagSourcesTruncate(docs: seq<Json>)
    requires forall i :: 0 <= i < |docs| ==> WellFormedDoc(docs[i])
    ensures RagSources(docs).Success?
    ensures |RagSources(docs).value| == |docs|
            && forall i :: 0 <= i < |docs| ==> RagSources(docs).value[i] == SourceEntry(docs[i])
  {
    forall i | 0 <= i < |docs| {
      RagSourceOf(docs[i]);
    }
  }

  /** An exception ends the solve with one more trace entry: a quota entry and the quota message
      when the message mentions "quota" in any case or "429", a failed entry carrying the
      message otherwise. */
  lemma ErrorClassification(trace: seq<TraceEntry>, message: string)
    ensures var r := Classify(trace, message);
            r.trace[..|trace|] == trace && |r.trace| == |trace| + 1
            && (r.QuotaExceeded? <==> IsQuotaError(message))
            && (r.QuotaExceeded? ==> Message(r) == QuotaMessage && r.trace[|trace|] == QuotaEntry)
            && (r.Failed? ==> Message(r) == message && r.trace[|trace|] == FailedEntry(message))
  {
  }

  /** Nothing is stored when the parser itself raises, and the trace then holds only its start. */
  lemma ParserFailureStoresNothing(rawText: string, inputType: string, now: string, stages: Stages, log: Option<seq<Json>>,
                                   md5Hex: string -> string, show: Json -> string, writeOk: bool)
    requires Ask(stages.parse, ParserInput(rawText, inputType)).Failure?
    ensures var (r, newLog) := Solve(rawText, inputType, now, stages, log, md5Hex, show, writeOk);
            newLog == log && r.trace[..1] == [Started(ParserStage)] && |r.trace| == 2
  {
  }

  // ---------------------------------------------------------------------------------------
  // Input processing
  // ---------------------------------------------------------------------------------------

  /** What each handler makes of the input data: the OCR reader's outcome, Whisper's, and the
      text; only the one `input_type` selects is used. */
  datatype HandlerInputs = HandlerInputs(
    ocrLoadError: Option<string>, reading: InputHandlers.OcrReading,
    asrLoadError: Option<string>, transcription: InputHandlers.Transcription,
    fallback: InputHandlers.FallbackTranscription, text: Json)

  /** The key holding the handler's text, and the correction type applied to it, per input type. */
  function TextKey(inputType: string): string
  {
    if inputType == "image" then "extracted_text" else if inputType == "audio" then "transcript" else "processed_text"
  }

  /** `result['corrected_text'] = apply_learned_corrections(...)` for image (OCR) and audio (ASR)
      input; text input is returned as the handler gave it. A value that is not a string is
      stored unchanged: either no correction is tried, or `in`/`.replace` raises and the `except`
      returns the value as given. */
  function WithCorrections(out: Fields, inputType: string, corrections: Json): Fields
  {
    if inputType != "image" && inputType != "audio" then out
    else
      match FieldOr(out, TextKey(inputType), JStr(""))
      case JStr(text) =>
        var correctionType := if inputType == "image" then "ocr" else "asr";
        PyDict.Upsert(out, "corrected_text", JStr(Memory.Corrected(corrections, text, correctionType)))
      case other => PyDict.Upsert(out, "corrected_text", other)
  }

  /** The trace entries of `process_input`. */
  function InputStarted(inputType: string): TraceEntry
  {
    TraceEntry(InputStage, "started", [("type", JStr(inputType))])
  }

  function InputCompleted(result: Fields): TraceEntry
  {
    Completed(InputStage, [("confidence", FieldOr(result, "confidence", JFloat(1.0))),
                           ("needs_hitl", FieldOr(result, "needs_hitl", JBool(false)))])
  }

  /** Every answer of the image handler holds its text as a string, so the correction step
      always runs on it. */
  lemma ImageTextIsString(reading: InputHandlers.OcrReading, threshold: real, message: string)
    ensures FieldOr(InputHandlers.ImageResult(reading, threshold), "extracted_text", JStr("")).JStr?
    ensures FieldOr(InputHandlers.ImageError(message), "extracted_text", JStr("")).JStr?
  {
    match reading {
      case OcrRaised(m) => InputHandlers.ImageOutputFields("", 0.0, true, "Error: " + m);
      case Detected(ds) => InputHandlers.OcrFields(ds, threshold);
    }
    InputHandlers.ImageOutputFields("", 0.0, true, "Error: " + message);
  }

  lemma ErrorTranscript(message: string)
    ensures FieldOr(InputHandlers.AudioError(message), "transcript", JStr("")) == JStr("")
  {
    PyDict.LookupAt(InputHandlers.AudioError(message), 0);
  }

  lemma FfmpegTranscript(details: string)
    ensures FieldOr(InputHandlers.FfmpegFailure(details), "transcript", JStr("")) == JStr("")
  {
    PyDict.LookupAt(InputHandlers.FfmpegFailure(details), 0);
  }

  lemma TranscriptText(raw: Json, threshold: real, show: Json -> string)
    ensures FieldOr(InputHandlers.TranscriptOutput(raw, threshold, show), "transcript", JStr("")).JStr?
  {
    PyDict.LookupAt(InputHandlers.TranscriptOutput(raw, threshold, show), 0);
  }

  /** Every answer of the audio handler holds its transcript as a string. */
  lemma AudioTextIsString(transcription: InputHandlers.Transcription, fallback: InputHandlers.FallbackTranscription,
                          threshold: real, show: Json -> string, message: string)
    ensures FieldOr(InputHandlers.AudioResult(transcription, fallback, threshold, show), "transcript", JStr("")).JStr?
    ensures FieldOr(InputHandlers.AudioError(message), "transcript", JStr("")).JStr?
  {
    var transcript := InputHandlers.Transcript(transcription, fallback);
    if transcript.None? {
      FfmpegTranscript(fallback.error);
    } else if transcript.value.Failure? {
      ErrorTranscript(transcript.value.error);
    } else {
      var text := Subscript(transcript.value.value, "text");
      if text.Failure? {
        ErrorTranscript(text.error);
      } else {
        TranscriptText(text.value, threshold, show);
      }
    }
    ErrorTranscript(message);
  }

  /** What the handler `input_type` selects answers, given whether its model is already loaded. */
  function Handled(inputs: HandlerInputs, inputType: string, readerLoaded: bool, ocrThreshold: real,
                   modelLoaded: bool, asrThreshold: real, show: Json -> string): Fields
  {
    if inputType == "image" then
      (if readerLoaded || inputs.ocrLoadError.None? then InputHandlers.ImageResult(inputs.reading, ocrThreshold)
       else InputHandlers.ImageError(inputs.ocrLoadError.value))
    else if inputType == "audio" then
      (if modelLoaded || inputs.asrLoadError.None?
       then InputHandlers.AudioResult(inputs.transcription, inputs.fallback, asrThreshold, show)
       else InputHandlers.AudioError(inputs.asrLoadError.value))
    else InputHandlers.ProcessText(inputs.text)
  }

  /** The selected handler's text is a string whenever the correction step reads it. */
  lemma HandledTextIsString(inputs: HandlerInputs, inputType: string, readerLoaded: bool, ocrThreshold: real,
                            modelLoaded: bool, asrThreshold: real, show: Json -> string)
    requires inputType == "image" || inputType == "audio"
    ensures FieldOr(Handled(inputs, inputType, readerLoaded, ocrThreshold, modelLoaded, asrThreshold, show),
                    TextKey(inputType), JStr("")).JStr?
  {
    if inputType == "image" {
      ImageTextIsString(inputs.reading, ocrThreshold, inputs.ocrLoadError.GetOr(""));
    } else {
      AudioTextIsString(inputs.transcription, inputs.fallback, asrThreshold, show, inputs.asrLoadError.GetOr(""));
    }
  }

  /** Corrections reach image and audio input only, under `corrected_text`, and the handler's
      other keys keep their values. A text that is not a string is stored as it is. */
  lemma CorrectionsOnlyForImageAndAudio(out: Fields, inputType: string, corrections: Json)
    ensures inputType != "image" && inputType != "audio" ==> WithCorrections(out, inputType, corrections) == out
    ensures inputType == "image" || inputType == "audio" ==>
              var handled := FieldOr(out, TextKey(inputType), JStr(""));
              var after := WithCorrections(out, inputType, corrections);
              (handled.JStr? ==>
                 PyDict.Lookup(after, "corrected_text")
                 == Some(JStr(Memory.Corrected(corrections, handled.s, if inputType == "image" then "ocr" else "asr"))))
              && (!handled.JStr? ==> PyDict.Lookup(after, "corrected_text") == Some(handled))
              && forall k :: k != "corrected_text" ==> PyDict.Lookup(after, k) == PyDict.Lookup(out, k)
  {
    if inputType == "image" || inputType == "audio" {
      var handled := FieldOr(out, TextKey(inputType), JStr(""));
      var v := if handled.JStr?
               then JStr(Memory.Corrected(corrections, handled.s, if inputType == "image" then "ocr" else "asr"))
               else handled;
      assert WithCorrections(out, inputType, corrections) == PyDict.Upsert(out, "corrected_text", v);
      PyDict.LookupUpsertSame(out, "corrected_text", v);
      forall k | k != "corrected_text"
        ensures PyDict.Lookup(PyDict.Upsert(out, "corrected_text", v), k) == PyDict.Lookup(out, k)
      {
        PyDict.LookupUpsertOther(out, "corrected_text", v, k);
      }
    }
  }

  class MathMentorOrchestrator {
    var trace: seq<TraceEntry>
    const memory: Memory.MemorySystem
    const imageHandler: InputHandlers.ImageInputHandler
    const audioHandler: InputHandlers.AudioInputHandler

    /** `__init__`, with the memory files' contents and the OCR and ASR thresholds. */
    constructor(log: Option<seq<Json>>, feedbackLog: seq<Json>, correctionsFile: Memory.CorrectionsFile,
                ocrThreshold: real, asrThreshold: real)
      ensures trace == []
      ensures fresh(memory) && memory.interactions == log && memory.feedback == feedbackLog
              && memory.correctionsFile == correctionsFile && memory.corrections == Memory.LoadCorrections(correctionsFile)
      ensures fresh(imageHandler) && !imageHandler.readerLoaded && imageHandler.confidenceThreshold == ocrThreshold
      ensures fresh(audioHandler) && !audioHandler.modelLoaded && audioHandler.confidenceThreshold == asrThreshold
    {
      memory := new Memory.MemorySystem(log, feedbackLog, correctionsFile);
      imageHandler := new InputHandlers.ImageInputHandler(ocrThreshold);
      audioHandler := new InputHandlers.AudioInputHandler(asrThreshold);
      trace := [];
    }

    /** The `except` branch of `solve_problem`: one more trace entry and the classified answer. */
    method HandleError(message: string) returns (result: SolveResult)
      modifies this
      ensures result == Classify(old(trace), message) && trace == result.trace
    {
      if IsQuotaError(message) {
        trace := trace + [QuotaEntry];
        return QuotaExceeded(trace);
      }
      trace := trace + [FailedEntry(message)];
      result := Failed(message, trace);
    }

    /** The stages of `solve_problem`, each recorded in the trace, which starts afresh; gives
        how far they got. */
    method RunStages(rawText: string, inputType: string, stages: Stages) returns (run: Run)
      modifies this
      ensures run == Pipeline(rawText, inputType, stages, memory.interactions) && trace == run.trace
    {
      trace := [];
      trace := trace + [Started(ParserStage)];
      assert trace == [Started(ParserStage)];
      var parsed := Ask(stages.parse, ParserInput(rawText, inputType));
      if parsed.Failure? {
        return Stopped(trace, parsed.error);
      }
      var parsedProblem := parsed.value;
      trace := trace + [Completed(ParserStage, [("output", parsedProblem)])];
      assert Pipeline(rawText, inputType, stages, memory.interactions)
          == AfterParser(trace, parsedProblem, stages, memory.interactions);
      var flag := Get(parsedProblem, "needs_clarification", JBool(false));
      if flag.Failure? {
        return Stopped(trace, flag.error);
      }
      var needsClarificationFlag := flag.value;
      if Truthy(needsClarificationFlag) {
        trace := trace + [ClarificationNotice];
      }
      var fs := parsedProblem.fields;
      var problemText := FieldOr(fs, "problem_text", JStr(""));
      var similarProblems := memory.FindSimilarProblems(problemText, FieldOr(fs, "topic", JStr("")), 3);
      trace := trace + [Completed(MemoryStage, [("similar_found", JInt(|similarProblems|))])];
      trace := trace + [Started(RagStage)];
      assert Pipeline(rawText, inputType, stages, memory.interactions)
          == Retrieval(trace, fs, needsClarificationFlag, similarProblems, stages);
      var retrieved := Ask(stages.retrieve, problemText);
      if retrieved.Failure? {
        return Stopped(trace, retrieved.error);
      }
      var ragContext := retrieved.value;
      trace := trace + [Completed(RagStage, [("documents_retrieved", JInt(|ragContext|))])];
      trace := trace + [Started(RouterStage)];
      assert Pipeline(rawText, inputType, stages, memory.interactions)
          == Routing(trace, fs, needsClarificationFlag, similarProblems, ragContext, stages);
      var routed := Ask(stages.route, [("parsed_problem", parsedProblem)]);
      if routed.Failure? {
        return Stopped(trace, routed.error);
      }
      var strategy := routed.value;
      trace := trace + [Completed(RouterStage, [("output", strategy)])];
      trace := trace + [Started(SolverStage)];
      assert Pipeline(rawText, inputType, stages, memory.interactions)
          == Solving(trace, fs, needsClarificationFlag, similarProblems, ragContext, strategy, stages);
      var solved := Ask(stages.solve, [("parsed_problem", parsedProblem), ("strategy", strategy), ("rag_context", JList(ragContext))]);
      if solved.Failure? {
        return Stopped(trace, solved.error);
      }
      var solution := solved.value;
      var confidence := Get(solution, "confidence", JFloat(0.0));
      if confidence.Failure? {
        return Stopped(trace, confidence.error);
      }
      trace := trace + [Completed(SolverStage, [("confidence", confidence.value)])];
      trace := trace + [Started(VerifierStage)];
      assert Pipeline(rawText, inputType, stages, memory.interactions)
          == Verifying(trace, fs, needsClarificationFlag, similarProblems, ragContext, strategy, solution, stages);
      var verified := Ask(stages.verify, [("parsed_problem", parsedProblem), ("solution", solution)]);
      if verified.Failure? {
        return Stopped(trace, verified.error);
      }
      var verification := verified.value;
      trace := trace + [Completed(VerifierStage, [("output", verification)])];
      trace := trace + [Started(ExplainerStage)];
      assert Pipeline(rawText, inputType, stages, memory.interactions)
          == Explaining(trace, fs, needsClarificationFlag, similarProblems, ragContext, strategy, solution, verification, stages);
      var explained := Ask(stages.explain, [("parsed_problem", parsedProblem), ("solution", solution), ("verification", verification)]);
      if explained.Failure? {
        return Stopped(trace, explained.error);
      }
      trace := trace + [Completed(ExplainerStage, [])];
      run := Finished(trace, fs, needsClarificationFlag, similarProblems, ragContext, strategy, solution, verification,
                      explained.value);
    }

    /** `solve_problem`; `now` is the timestamp taken at its start, `md5Hex`, `show` and `writeOk`
        are what the store needs. */
    method SolveProblem(rawText: string, inputType: string, now: string, stages: Stages,
                        md5Hex: string -> string, show: Json -> string, writeOk: bool)
      returns (result: SolveResult)
      modifies this, memory
      ensures (result, memory.interactions) == Solve(rawText, inputType, now, stages, old(memory.interactions), md5Hex, show, writeOk)
      ensures trace == result.trace
      ensures memory.feedback == old(memory.feedback) && memory.corrections == old(memory.corrections)
              && memory.correctionsFile == old(memory.correctionsFile)
    {
      var timestamp := now;
      var run := RunStages(rawText, inputType, stages);
      if run.Stopped? {
        result := HandleError(run.error);
        return;
      }
      var ids := SimilarIds(run.similar);
      if ids.Failure? {
        result := HandleError(ids.error);
        return;
      }
      var interaction := Interaction(timestamp, rawText, inputType, JObject(run.parsed), run.rag, run.solution,
                                     run.verification, run.explanation, ids.value);
      var interactionId := memory.StoreInteraction(interaction, md5Hex, show, writeOk);
      var ragSources := RagSources(run.rag);
      if ragSources.Failure? {
        result := HandleError(ragSources.error);
        return;
      }
      var requiresHitl := Get(run.verification, "requires_hitl", JBool(false));
      if requiresHitl.Failure? {
        result := HandleError(requiresHitl.error);
        return;
      }
      result := Solved(interactionId, JObject(run.parsed), run.strategy, run.solution, run.verification, run.explanation,
                       ragSources.value, run.similar, trace, requiresHitl.value, run.flag);
    }

    /** `process_input`: runs the handler `input_type` selects, applies the learned corrections to
        image and audio text, and appends a start and a completion entry to the trace without
        resetting it. The handlers catch every exception, so its `except` branch never runs. */
    method ProcessInput(inputs: HandlerInputs, inputType: string, show: Json -> string) returns (result: Fields)
      modifies this, imageHandler, audioHandler
      ensures result == WithCorrections(Handled(inputs, inputType, old(imageHandler.readerLoaded), imageHandler.confidenceThreshold,
                                                old(audioHandler.modelLoaded), audioHandler.confidenceThreshold, show),
                                        inputType, memory.corrections)
      ensures trace == old(trace) + [InputStarted(inputType), InputCompleted(result)]
      ensures imageHandler.readerLoaded == (old(imageHandler.readerLoaded) || (inputType == "image" && inputs.ocrLoadError.None?))
      ensures audioHandler.modelLoaded == (old(audioHandler.modelLoaded) || (inputType == "audio" && inputs.asrLoadError.None?))
    {
      ghost var handledSpec := Handled(inputs, inputType, imageHandler.readerLoaded, imageHandler.confidenceThreshold,
                                       audioHandler.modelLoaded, audioHandler.confidenceThreshold, show);
      trace := trace + [InputStarted(inputType)];
      var handled: Fields;
      if inputType == "image" {
        handled := imageHandler.ProcessImage(inputs.ocrLoadError, inputs.reading);
      } else if inputType == "audio" {
        handled := audioHandler.ProcessAudio(inputs.asrLoadError, inputs.transcription, inputs.fallback, show);
      } else {
        handled := InputHandlers.ProcessText(inputs.text);
      }
      assert handled == handledSpec;
      if inputType == "image" || inputType == "audio" {
        HandledTextIsString(inputs, inputType, old(imageHandler.readerLoaded), imageHandler.confidenceThreshold,
                            old(audioHandler.modelLoaded), audioHandler.confidenceThreshold, show);
      }
      result := ApplyCorrections(handled, inputType);
      trace := trace + [InputCompleted(result)];
    }

    /** The correction step of `process_input`, for a handler answer whose text is a string. */
    method ApplyCorrections(handled: Fields, inputType: string) returns (result: Fields)
      requires inputType == "image" || inputType == "audio" ==> FieldOr(handled, TextKey(inputType), JStr("")).JStr?
      ensures result == WithCorrections(handled, inputType, memory.corrections)
    {
      result := handled;
      if inputType == "image" || inputType == "audio" {
        var processedText := FieldOr(handled, TextKey(inputType), JStr(""));
        var correctionType := if inputType == "image" then "ocr" else "asr";
        var corrected := memory.ApplyLearnedCorrections(processedText.s, correctionType);
        result := PyDict.Upsert(handled, "corrected_text", JStr(corrected));
      }
    }

    /** `submit_feedback` */
    method SubmitFeedback(interactionId: string, feedback: Json, now: string, writeOk: bool)
      modifies memory
      ensures memory.feedback == old(memory.feedback) + (if writeOk then [Memory.FeedbackEntry(interactionId, feedback, now)] else [])
      ensures memory.interactions == old(memory.interactions) && memory.corrections == old(memory.corrections)
              && memory.correctionsFile == old(memory.correctionsFile)
    {
      memory.StoreFeedback(interactionId, feedback, now, writeOk);
    }

    /** `store_correction` */
    method StoreCorrection(original: string, corrected: string, correctionType: string, saveOk: bool)
      modifies memory
      ensures var stored := Memory.StoredCorrections(old(memory.corrections), original, corrected, correctionType);
              memory.corrections == stored.GetOr(old(memory.corrections))
              && memory.correctionsFile == (if stored.Some? && saveOk then Memory.Holds(memory.corrections) else old(memory.correctionsFile))
      ensures memory.interactions == old(memory.interactions) && memory.feedback == old(memory.feedback)
    {
      memory.StoreUserCorrection(original, corrected, correctionType, saveOk);
    }
  }
}
