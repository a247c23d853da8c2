/** The older `MathMentorOrchestrator` (`utils/orchestrator.py`). Its stages, trace entries and
    store are the backend's, modelled once in `Orchestrator`; it differs in three ways: a truthy
    `needs_clarification` ends the solve right after the parser, every exception is answered as
    an error (there is no quota answer), and audio goes to the older handler. */
module LegacyOrchestrator {
  import opened Wrappers
  import opened PyJson
  import PyDict
  import Memory
  import InputHandlers
  import LegacyInputHandlers
  import opened Orchestrator

  /** How far the older stages got: stopped for clarification after the parser, or a run of the
      remaining stages as the backend's. */
  datatype LegacyRun = Clarify(stopTrace: seq<TraceEntry>, parsed: Json) | Ran(run: Run)
  {
    function Trace(): seq<TraceEntry>
    {
      match this
      case Clarify(t, _) => t
      case Ran(r) => r.trace
    }
  }

  function LegacyPipeline(rawText: string, inputType: string, stages: Stages, log: Option<seq<Json>>): LegacyRun
  {
    var t := [Started(ParserStage)];
    match Ask(stages.parse, ParserInput(rawText, inputType))
    case Failure(e) => Ran(Stopped(t, e))
    case Success(parsed) =>
      var t1 := t + [Completed(ParserStage, [("output", parsed)])];
      match Get(parsed, "needs_clarification", JBool(false))
      case Failure(e) => Ran(Stopped(t1, e))
      case Success(flag) =>
        if Truthy(flag) then Clarify(t1, parsed)
        else
          var fs := parsed.fields;
          var similar := Memory.Records(Memory.SimilarScored(log, FieldOr(fs, "problem_text", JStr("")), FieldOr(fs, "topic", JStr("")), 3));
          Ran(Retrieval(t1 + [Completed(MemoryStage, [("similar_found", JInt(|similar|))])] + [Started(RagStage)],
                        fs, flag, similar, stages))
  }

  datatype LegacyResult =
    | LegacySolved(interactionId: string, parsedProblem: Json, strategy: Json, solution: Json, verification: Json,
                   explanation: Json, ragSources: seq<Json>, similarProblems: seq<Json>, trace: seq<TraceEntry>,
                   requiresHitl: Json)
    | NeedsClarification(parsedProblem: Json, message: string, trace: seq<TraceEntry>)
    | LegacyFailed(message: string, trace: seq<TraceEntry>)

  const ClarificationMessage: string := "Problem is ambiguous and needs clarification"

  /** The `except` branch: one failed entry, and the exception's text as the message. */
  function Fail(trace: seq<TraceEntry>, message: string): LegacyResult
  {
    LegacyFailed(message, trace + [FailedEntry(message)])
  }

  /** The rest of the older `solve_problem` after the stages, as the backend's but with every
      exception answered by `Fail`. */
  function LegacyConclude(lrun: LegacyRun, now: string, rawText: string, inputType: string, log: Option<seq<Json>>,
                          md5Hex: string -> string, show: Json -> string, writeOk: bool): (LegacyResult, Option<seq<Json>>)
  {
    match lrun
    case Clarify(t, parsed) => (NeedsClarification(parsed, ClarificationMessage, t), log)
    case Ran(Stopped(t, e)) => (Fail(t, e), log)
    case Ran(run) =>
      match SimilarIds(run.similar)
      case Failure(e) => (Fail(run.trace, e), log)
      case Success(ids) =>
        var record := RunRecord(now, rawText, inputType, run, ids);
        var id := if writeOk then Memory.InteractionId(record, md5Hex, show) else "";
        var newLog := if writeOk then Some(log.GetOr([]) + [JObject(Memory.WithId(record, md5Hex, show))]) else log;
        match RagSources(run.rag)
        case Failure(e) => (Fail(run.trace, e), newLog)
        case Success(sources) =>
          match Get(run.verification, "requires_hitl", JBool(false))
          case Failure(e) => (Fail(run.trace, e), newLog)
          case Success(hitl) =>
            (LegacySolved(id, JObject(run.parsed), run.strategy, run.solution, run.verification, run.explanation,
                          sources, run.similar, run.trace, hitl),
             newLog)
  }

  function LegacySolve(rawText: string, inputType: string, now: string, stages: Stages, log: Option<seq<Json>>,
                       md5Hex: string -> string, show: Json -> string, writeOk: bool): (LegacyResult, Option<seq<Json>>)
  {
    LegacyConclude(LegacyPipeline(rawText, inputType, stages, log), now, rawText, inputType, log, md5Hex, show, writeOk)
  }

  // ---------------------------------------------------------------------------------------
  // Properties
  // ---------------------------------------------------------------------------------------

  /** A truthy `needs_clarification` stops the older solve after the parser: the answer carries
      the parsed problem and the parser's two trace entries, and nothing is stored. */
  lemma ClarificationStopsEarly(rawText: string, inputType: string, now: string, stages: Stages, log: Option<seq<Json>>,
                                md5Hex: string -> string, show: Json -> string, writeOk: bool)
    requires Ask(stages.parse, ParserInput(rawText, inputType)).Success?
    requires var parsed := Ask(stages.parse, ParserInput(rawText, inputType)).value;
             parsed.JObject? && Truthy(FieldOr(parsed.fields, "needs_clarification", JBool(false)))
    ensures var parsed := Ask(stages.parse, ParserInput(rawText, inputType)).value;
            LegacySolve(rawText, inputType, now, stages, log, md5Hex, show, writeOk)
            == (NeedsClarification(parsed, ClarificationMessage, [Started(ParserStage)] + [Completed(ParserStage, [("output", parsed)])]), log)
  {
  }

  /** Without the flag, the older stages run exactly as the backend's. */
  lemma AgreesWithoutClarification(rawText: string, inputType: string, stages: Stages, log: Option<seq<Json>>)
    requires var p := Ask(stages.parse, ParserInput(rawText, inputType));
             !(p.Success? && p.value.JObject? && Truthy(FieldOr(p.value.fields, "needs_clarification", JBool(false))))
    ensures LegacyPipeline(rawText, inputType, stages, log) == Ran(Pipeline(rawText, inputType, stages, log))
  {
    var p := Ask(stages.parse, ParserInput(rawText, inputType));
    if p.Success? && p.value.JObject? {
      var t1 := [Started(ParserStage)] + [Completed(ParserStage, [("output", p.value)])];
      assert Pipeline(rawText, inputType, stages, log) == AfterParser(t1, p.value, stages, log);
    }
  }

  /** The older orchestrator never answers with a quota notice: every exception, whatever its
      text, gives an error whose message is that text, after one failed entry. */
  lemma EveryErrorFails(rawText: string, inputType: string, now: string, stages: Stages, log: Option<seq<Json>>,
                        md5Hex: string -> string, show: Json -> string, writeOk: bool)
    requires LegacyPipeline(rawText, inputType, stages, log).Ran?
    requires LegacyPipeline(rawText, inputType, stages, log).run.Stopped?
    ensures var run := LegacyPipeline(rawText, inputType, stages, log).run;
            var r := LegacySolve(rawText, inputType, now, stages, log, md5Hex, show, writeOk).0;
            r == LegacyFailed(run.error, run.trace + [FailedEntry(run.error)])
  {
  }

  /** Where both finish, the older and the backend solves store the same record and agree on
      every field of the answer; the backend adds only the (falsy) flag. */
  lemma SolvedAgrees(run: Run, now: string, rawText: string, inputType: string, log: Option<seq<Json>>,
                     md5Hex: string -> string, show: Json -> string, writeOk: bool)
    requires Conclude(run, now, rawText, inputType, log, md5Hex, show, writeOk).0.Solved?
    ensures var (b, bLog) := Conclude(run, now, rawText, inputType, log, md5Hex, show, writeOk);
            var (l, lLog) := LegacyConclude(Ran(run), now, rawText, inputType, log, md5Hex, show, writeOk);
            lLog == bLog
            && l == LegacySolved(b.interactionId, b.parsedProblem, b.strategy, b.solution, b.verification,
                                 b.explanation, b.ragSources, b.similarProblems, b.trace, b.requiresHitl)
  {
  }

  // ---------------------------------------------------------------------------------------
  // Input processing
  // ---------------------------------------------------------------------------------------

  /** The handler inputs of the older orchestrator: its audio handler takes Whisper's result or
      exception directly. */
  datatype LegacyInputs = LegacyInputs(
    ocrLoadError: Option<string>, reading: InputHandlers.OcrReading,
    asrLoadError: Option<string>, transcribed: Result<Json, string>, text: Json)

  function LegacyHandled(inputs: LegacyInputs, inputType: string, readerLoaded: bool, ocrThreshold: real,
                         modelLoaded: bool, asrThreshold: real): Fields
  {
    if inputType == "image" then
      (if readerLoaded || inputs.ocrLoadError.None? then InputHandlers.ImageResult(inputs.reading, ocrThreshold)
       else InputHandlers.ImageError(inputs.ocrLoadError.value))
    else if inputType == "audio" then
      (if modelLoaded || inputs.asrLoadError.None? then LegacyInputHandlers.AudioResult(inputs.transcribed, asrThreshold)
       else InputHandlers.AudioError(inputs.asrLoadError.value))
    else InputHandlers.ProcessText(inputs.text)
  }

  /** The older audio handler's transcript is a string on every path. */
  lemma LegacyTranscriptIsString(transcribed: Result<Json, string>, threshold: real)
    ensures FieldOr(LegacyInputHandlers.AudioResult(transcribed, threshold), "transcript", JStr("")).JStr?
  {
    PyDict.LookupAt(LegacyInputHandlers.AudioResult(transcribed, threshold), 0);
  }

  lemma LegacyHandledTextIsString(inputs: LegacyInputs, inputType: string, readerLoaded: bool, ocrThreshold: real,
                                  modelLoaded: bool, asrThreshold: real)
    requires inputType == "image" || inputType == "audio"
    ensures FieldOr(LegacyHandled(inputs, inputType, readerLoaded, ocrThreshold, modelLoaded, asrThreshold),
                    TextKey(inputType), JStr("")).JStr?
  {
    if inputType == "image" {
      ImageTextIsString(inputs.reading, ocrThreshold, inputs.ocrLoadError.GetOr(""));
    } else {
      LegacyTranscriptIsString(inputs.transcribed, asrThreshold);
      ErrorTranscript(inputs.asrLoadError.GetOr(""));
    }
  }

  class LegacyMathMentorOrchestrator {
    var trace: seq<TraceEntry>
    const memory: Memory.MemorySystem
    const imageHandler: InputHandlers.ImageInputHandler
    const audioHandler: LegacyInputHandlers.AudioInputHandler

    constructor(log: Option<seq<Json>>, feedbackLog: seq<Json>, correctionsFile: Memory.CorrectionsFile,
                ocrThreshold: real, asrThreshold: real)
      ensures trace == []
      ensures fresh(memory) && memory.interactions == log && memory.feedback == feedbackLog
              && memory.correctionsFile == correctionsFile && memory.corrections == Memory.LoadCorrections(correctionsFile)
      ensures fresh(imageHandler) && !imageHandler.readerLoaded && imageHandler.confidenceThreshold == ocrThreshold
      ensures fresh(audioHandler) && !audioHandler.modelLoaded && audioHandler.confidenceThreshold == asrThreshold
    {
      memory := new Memory.MemorySystem(log, feedbackLog, correctionsFile);
      imageHandler := new InputHandlers.ImageInputHandler(ocrThreshold);
      audioHandler := new LegacyInputHandlers.AudioInputHandler(asrThreshold);
      trace := [];
    }

    /** The stages of the older `solve_problem`, each recorded in the trace, which starts afresh. */
    method RunStages(rawText: string, inputType: string, stages: Stages) returns (lrun: LegacyRun)
      modifies this
      ensures lrun == LegacyPipeline(rawText, inputType, stages, memory.interactions) && trace == lrun.Trace()
    {
      trace := [];
      trace := trace + [Started(ParserStage)];
      assert trace == [Started(ParserStage)];
      var parsed := Ask(stages.parse, ParserInput(rawText, inputType));
      if parsed.Failure? {
        return Ran(Stopped(trace, parsed.error));
      }
      var parsedProblem := parsed.value;
      trace := trace + [Completed(ParserStage, [("output", parsedProblem)])];
      var flag := Get(parsedProblem, "needs_clarification", JBool(false));
      if flag.Failure? {
        return Ran(Stopped(trace, flag.error));
      }
      if Truthy(flag.value) {
        return Clarify(trace, parsedProblem);
      }
      var fs := parsedProblem.fields;
      var problemText := FieldOr(fs, "problem_text", JStr(""));
      var similarProblems := memory.FindSimilarProblems(problemText, FieldOr(fs, "topic", JStr("")), 3);
      trace := trace + [Completed(MemoryStage, [("similar_found", JInt(|similarProblems|))])];
      trace := trace + [Started(RagStage)];
      assert LegacyPipeline(rawText, inputType, stages, memory.interactions)
          == Ran(Retrieval(trace, fs, flag.value, similarProblems, stages));
      var retrieved := Ask(stages.retrieve, problemText);
      if retrieved.Failure? {
        return Ran(Stopped(trace, retrieved.error));
      }
      var ragContext := retrieved.value;
      trace := trace + [Completed(RagStage, [("documents_retrieved", JInt(|ragContext|))])];
      trace := trace + [Started(RouterStage)];
      assert LegacyPipeline(rawText, inputType, stages, memory.interactions)
          == Ran(Routing(trace, fs, flag.value, similarProblems, ragContext, stages));
      var routed := Ask(stages.route, [("parsed_problem", parsedProblem)]);
      if routed.Failure? {
        return Ran(Stopped(trace, routed.error));
      }
      var strategy := routed.value;
      trace := trace + [Completed(RouterStage, [("output", strategy)])];
      trace := trace + [Started(SolverStage)];
      assert LegacyPipeline(rawText, inputType, stages, memory.interactions)
          == Ran(Solving(trace, fs, flag.value, similarProblems, ragContext, strategy, stages));
      var solved := Ask(stages.solve, [("parsed_problem", parsedProblem), ("strategy", strategy), ("rag_context", JList(ragContext))]);
      if solved.Failure? {
        return Ran(Stopped(trace, solved.error));
      }
      var solution := solved.value;
      var confidence := Get(solution, "confidence", JFloat(0.0));
      if confidence.Failure? {
        return Ran(Stopped(trace, confidence.error));
      }
      trace := trace + [Completed(SolverStage, [("confidence", confidence.value)])];
      trace := trace + [Started(VerifierStage)];
      assert LegacyPipeline(rawText, inputType, stages, memory.interactions)
          == Ran(Verifying(trace, fs, flag.value, similarProblems, ragContext, strategy, solution, stages));
      var verified := Ask(stages.verify, [("parsed_problem", parsedProblem), ("solution", solution)]);
      if verified.Failure? {
        return Ran(Stopped(trace, verified.error));
      }
      var verification := verified.value;
      trace := trace + [Completed(VerifierStage, [("output", verification)])];
      trace := trace + [Started(ExplainerStage)];
      assert LegacyPipeline(rawText, inputType, stages, memory.interactions)
          == Ran(Explaining(trace, fs, flag.value, similarProblems, ragContext, strategy, solution, verification, stages));
      var explained := Ask(stages.explain, [("parsed_problem", parsedProblem), ("solution", solution), ("verification", verification)]);
      if explained.Failure? {
        return Ran(Stopped(trace, explained.error));
      }
      trace := trace + [Completed(ExplainerStage, [])];
      lrun := Ran(Finished(trace, fs, flag.value, similarProblems, ragContext, strategy, solution, verification,
                           explained.value));
    }

    /** The `except` branch of the older `solve_problem`. */
    method HandleError(message: string) returns (result: LegacyResult)
      modifies this
      ensures result == Fail(old(trace), message) && trace == result.trace
    {
      trace := trace + [FailedEntry(message)];
      result := LegacyFailed(message, trace);
    }

    /** The older `solve_problem`. */
    method SolveProblem(rawText: string, inputType: string, now: string, stages: Stages,
                        md5Hex: string -> string, show: Json -> string, writeOk: bool)
      returns (result: LegacyResult)
      modifies this, memory
      ensures (result, memory.interactions)
              == LegacySolve(rawText, inputType, now, stages, old(memory.interactions), md5Hex, show, writeOk)
      ensures trace == result.trace
      ensures memory.feedback == old(memory.feedback) && memory.corrections == old(memory.corrections)
              && memory.correctionsFile == old(memory.correctionsFile)
    {
      var timestamp := now;
      var lrun := RunStages(rawText, inputType, stages);
      if lrun.Clarify? {
        return NeedsClarification(lrun.parsed, ClarificationMessage, trace);
      }
      var run := lrun.run;
      if run.Stopped? {
        result := HandleError(run.error);
        return;
      }
      var ids := SimilarIds(run.similar);
      if ids.Failure? {
        result := HandleError(ids.error);
        return;
      }
      var interaction := Interaction(timestamp, rawText, inputType, JObject(run.parsed), run.rag, run.solution,
                                     run.verification, run.explanation, ids.value);
      var interactionId := memory.StoreInteraction(interaction, md5Hex, show, writeOk);
      var ragSources := RagSources(run.rag);
      if ragSources.Failure? {
        result := HandleError(ragSources.error);
        return;
      }
      var requiresHitl := Get(run.verification, "requires_hitl", JBool(false));
      if requiresHitl.Failure? {
        result := HandleError(requiresHitl.error);
        return;
      }
      result := LegacySolved(interactionId, JObject(run.parsed), run.strategy, run.solution, run.verification,
                             run.explanation, ragSources.value, run.similar, trace, requiresHitl.value);
    }

    /** The older `process_input`, as the backend's with the older audio handler. */
    method ProcessInput(inputs: LegacyInputs, inputType: string) returns (result: Fields)
      modifies this, imageHandler, audioHandler
      ensures result == WithCorrections(LegacyHandled(inputs, inputType, old(imageHandler.readerLoaded), imageHandler.confidenceThreshold,
                                                      old(audioHandler.modelLoaded), audioHandler.confidenceThreshold),
                                        inputType, memory.corrections)
      ensures trace == old(trace) + [InputStarted(inputType), InputCompleted(result)]
      ensures imageHandler.readerLoaded == (old(imageHandler.readerLoaded) || (inputType == "image" && inputs.ocrLoadError.None?))
      ensures audioHandler.modelLoaded == (old(audioHandler.modelLoaded) || (inputType == "audio" && inputs.asrLoadError.None?))
    {
      ghost var handledSpec := LegacyHandled(inputs, inputType, imageHandler.readerLoaded, imageHandler.confidenceThreshold,
                                             audioHandler.modelLoaded, audioHandler.confidenceThreshold);
      trace := trace + [InputStarted(inputType)];
      var handled: Fields;
      if inputType == "image" {
        handled := imageHandler.ProcessImage(inputs.ocrLoadError, inputs.reading);
      } else if inputType == "audio" {
        handled := audioHandler.ProcessAudio(inputs.asrLoadError, inputs.transcribed);
      } else {
        handled := InputHandlers.ProcessText(inputs.text);
      }
      assert handled == handledSpec;
      if inputType == "image" || inputType == "audio" {
        LegacyHandledTextIsString(inputs, inputType, old(imageHandler.readerLoaded), imageHandler.confidenceThreshold,
                                  old(audioHandler.modelLoaded), audioHandler.confidenceThreshold);
      }
      result := ApplyCorrections(handled, inputType);
      trace := trace + [InputCompleted(result)];
    }

    /** The correction step of the older `process_input`. */
    method ApplyCorrections(handled: Fields, inputType: string) returns (result: Fields)
      requires inputType == "image" || inputType == "audio" ==> FieldOr(handled, TextKey(inputType), JStr("")).JStr?
      ensures result == WithCorrections(handled, inputType, memory.corrections)
    {
      result := handled;
      if inputType == "image" || inputType == "audio" {
        var processedText := FieldOr(handled, TextKey(inputType), JStr(""));
        var correctionType := if inputType == "image" then "ocr" else "asr";
        var corrected := memory.ApplyLearnedCorrections(processedText.s, correctionType);
        result := PyDict.Upsert(handled, "corrected_text", JStr(corrected));
      }
    }

    /** `submit_feedback` */
    method SubmitFeedback(interactionId: string, feedback: Json, now: string, writeOk: bool)
      modifies memory
      ensures memory.feedback == old(memory.feedback) + (if writeOk then [Memory.FeedbackEntry(interactionId, feedback, now)] else [])
      ensures memory.interactions == old(memory.interactions) && memory.corrections == old(memory.corrections)
              && memory.correctionsFile == old(memory.correctionsFile)
    {
      memory.StoreFeedback(interactionId, feedback, now, writeOk);
    }

    /** `store_correction` */
    method StoreCorrection(original: string, corrected: string, correctionType: string, saveOk: bool)
      modifies memory
      ensures var stored := Memory.StoredCorrections(old(memory.corrections), original, corrected, correctionType);
              memory.corrections == stored.GetOr(old(memory.corrections))
              && memory.correctionsFile == (if stored.Some? && saveOk then Memory.Holds(memory.corrections) else old(memory.correctionsFile))
      ensures memory.interactions == old(memory.interactions) && memory.feedback == old(memory.feedback)
    {
      memory.StoreUserCorrection(original, corrected, correctionType, saveOk);
    }
  }
}
