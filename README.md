# AI Math Mentor — a Dafny model of the tutoring pipeline

AI Math Mentor takes a maths problem as typed text, a photo (OCR) or a recording (speech
recognition) and solves it with a chain of language-model agents. The chain is parser, intent
router, solver, verifier and explainer. A memory of past interactions and learned corrections
supports the chain, and an orchestrator records an execution trace and stores every finished
interaction.

This project models the control layer of that system, module by module:

- `wrappers.dfy`, `text.dfy`, `py_dict.dfy`, `py_json.dfy`: Python's string helpers (strip, split,
  replace, join, slicing), insertion-ordered dicts and JSON values. They keep the semantics the
  code depends on: `.get` on a non-dict raises, slicing, truthiness.
- `agent_json.dfy`: the "first `{` to last `}`" cut that every agent applies to a model reply
  before `json.loads`.
- `base_agent.dfy`: the prompt built from chat messages, the lazy client set-up, the retry loop
  with quota back-off, and the retry-delay parser.
- `parser_agent.dfy`, `intent_router_agent.dfy`, `solver_agent.dfy`, `verifier_agent.dfy`,
  `explainer_agent.dfy`: each agent's `execute` with its success path, parse-failure fallback and
  exception fallback. The verifier also forces human review of low-confidence answers, and the
  solver runs the SymPy tool.
- `memory_system.dfy`: the class `MemorySystem`. It covers storing and finding interactions,
  recent interactions, similar problems (keyword overlap plus same topic, sorted by score),
  learned corrections and feedback.
- `input_handlers.dfy`, `legacy_input_handlers.dfy`: the OCR, speech and text handlers. These are
  the backend ones plus the older top-level audio handler.
- `orchestrator.dfy`, `legacy_orchestrator.dfy`: the backend `MathMentorOrchestrator` and the older
  top-level one, which stops early on an ambiguous problem.
- `app.dfy`: the API-key format check and the confidence colour band of the web front end.

Everything the code obtains from outside is a parameter of the model. That covers the language
model's replies, `json.loads`, the MD5 digest, SymPy execution, OCR detections, Whisper
transcripts, the clock, file reads and writes (success flags), and `str()` of floats. The
agents' execute functions take one `Result<string, string>` for "the reply, or the exception
raised while building the prompt or calling the model". The orchestrator takes the five agents'
outputs and the retrieval result as stage functions.

A few behaviours of the code differ from what its comments or design notes suggest. The model
follows the code in each case and proves the behaviour as a property:

- The similarity filter keeps a past problem only when more than two keywords overlap; the comment
  says "at least 2" (`Memory.CandidatesKept`).
- The "x squared" and "x cubed" speech conversions can never fire, because the earlier "squared"
  and "cubed" entries already replaced those words (`InputHandlers.DeadEntries`).
- `get_recent_interactions(0)` returns the whole log (`Memory.RecentZeroIsAll`).
- The parser's successful output is returned without checking its schema; only the fallbacks have
  the documented keys (`ParserAgent.ReturnsParsedObject`, `ParserAgent.FallbackSchema`).
- The interaction is stored before the result is assembled. A result that then fails (a retrieved
  document without a `source` key) is reported as an error although the log has grown
  (`Orchestrator.ErrorAfterStore`).
- For OpenAI keys the length check rejects only keys under 40 characters. Keys of 40 to 50
  characters get the format message (`App.OpenAiLengthMessages`).
- The older audio handler returns an error when Whisper's text is not a string
  (`LegacyInputHandlers.NonStringTranscriptIsError`).
- The `except` branch of `process_input` cannot be reached: `process_image`, `process_audio` and
  `process_text` each catch `Exception` and always return a dict, so the `.get` calls and the
  `corrected_text` assignment on it cannot raise, and `apply_learned_corrections` catches its own
  exceptions. `Orchestrator.HandledTextIsString` adds that the text corrections read is a string.

## Model

| member | source | states |
|---|---|---|
| AgentJson.Find | backend/agents/verifier_agent.py:109 | `str.find`: -1 exactly when the character is absent, otherwise an index holding it with no earlier occurrence |
| AgentJson.RFind | backend/agents/verifier_agent.py:110 | `str.rfind`: -1 exactly when absent, otherwise an index holding it with no later occurrence |
| AgentJson.JsonCandidate | agents/parser_agent.py:92-98 | with a `{` before a later `}`, the cut starts with `{` and ends with `}`, with no `{` before it or `}` after it in the reply; otherwise the whole reply |
| AgentJson.CandidateExtracts | agents/intent_router_agent.py:87-94 | an object between a prefix without `{` and a suffix without `}` is extracted exactly |
| AgentJson.CandidateIdempotent | agents/solver_agent.py:140-146 | cutting a cut reply again changes nothing |
| BaseAgent.Lines | backend/agents/base_agent.py:47-51 | one `role: content` line per message, in message order |
| BaseAgent.MessagesToPrompt | backend/agents/base_agent.py:45-52 | the loop builds the newline join of those lines |
| BaseAgent.PromptLines | backend/agents/base_agent.py:45-52 | when no role or content holds a newline, splitting the prompt at newlines gives back the message lines |
| BaseAgent.NumberRun | backend/agents/base_agent.py:130 | the longest prefix of digits and dots |
| BaseAgent.MatchHere | backend/agents/base_agent.py:130 | a match at the start of the text is "retry in ", a non-empty run of digits and dots, then `s` |
| BaseAgent.MatchHereOf | backend/agents/base_agent.py:130 | conversely, every "retry in <digits and dots>s" matches, and the run is the group |
| BaseAgent.SearchRetry | backend/agents/base_agent.py:130 | a matched group is a non-empty run of digits and dots (its leftmost-match meaning is `SearchRetrySpec`) |
| BaseAgent.SearchRetrySpec | backend/agents/base_agent.py:130-131 | `re.search`: no group exactly when the pattern matches at no index; otherwise the group of the leftmost match |
| BaseAgent.ParseDecimal | backend/agents/base_agent.py:132 | `float(group)`: a non-negative value, or Python's ValueError message naming the group |
| BaseAgent.ParseDecimalWhole | backend/agents/base_agent.py:132 | a dot-free group of digits is read as its decimal value |
| BaseAgent.ParseDecimalPoint | backend/agents/base_agent.py:132 | a group `w.f` is read as `w + f / 10^len(f)`; a lone dot raises ValueError |
| BaseAgent.ParseDecimalTwoDots | backend/agents/base_agent.py:132 | a group with two or more dots raises ValueError |
| BaseAgent.DecimalValue | backend/agents/base_agent.py:132 | the number `w.f` is non-negative |
| BaseAgent.ExtractRetryDelay | backend/agents/base_agent.py:120-140 | the "retry in Ns" number as a float when present; otherwise the int 3600 for the daily-quota marker and the float 10.0 by default |
| BaseAgent.ParseDecimalNat | backend/agents/base_agent.py:132 | the decimal text of `n` parses back to `n` |
| BaseAgent.RetryDelayAfter | backend/agents/base_agent.py:128-132 | after text where no match begins, "retry in <group>s" yields `float(group)` |
| BaseAgent.RetryDelayDecimal | backend/agents/base_agent.py:128-132 | "…retry in X.XXs…", with no earlier match, yields the decimal number X.XX |
| BaseAgent.NoMatchWithoutR | backend/agents/base_agent.py:130 | no match begins inside text that holds no `r` |
| BaseAgent.PleaseRetryExample | backend/agents/base_agent.py:128-132 | "Please retry in 37.5s." yields 37.5 |
| BaseAgent.RetryDelayFromMessage | backend/agents/base_agent.py:129-132 | a message "retry in `n`s…" yields the float delay `n` |
| BaseAgent.DailyQuotaWaitsAnHour | backend/agents/base_agent.py:134-137 | the daily-quota marker without "retry in" gives one hour as the int 3600, which the quota-exhausted error prints as "3600" |
| BaseAgent.CallLlmBounds | backend/agents/base_agent.py:69-113 | at most `max_retries` calls, one sleep between consecutive calls, and a returned text is non-empty and came from one of the calls |
| BaseAgent.NoRetriesNoCall | backend/agents/base_agent.py:69-118 | with `max_retries <= 0` the model is never called and the "no attempts" error is raised |
| BaseAgent.NonQuotaNotRetried | backend/agents/base_agent.py:110-113 | a non-quota error is raised after a single call |
| BaseAgent.EmptyTextNotRetried | backend/agents/base_agent.py:78-82 | a reply without text fails with the "no text" error after a single call |
| BaseAgent.NoTextIsNotQuota | backend/agents/base_agent.py:80-89 | the "no text" error is never mistaken for a quota error |
| BaseAgent.QuotaExhaustsAllAttempts | backend/agents/base_agent.py:88-109 | quota errors on every attempt use all `max_retries` calls, sleep between them, and end in the quota-exhausted error |
| BaseAgent.QuotaMessageMentionsQuota | backend/agents/base_agent.py:105-109 | the error raised after the last quota hit contains the word "quota" |
| BaseAgent.RetryLoop | backend/agents/base_agent.py:68-118 | the imperative loop returns exactly the outcome, sleeps and call count of the recursive specification |
| BaseAgent.ModelName | backend/agents/base_agent.py:33 | the configured model name, or the default when none is configured; never empty |
| BaseAgent.LlmClient.constructor | backend/agents/base_agent.py:18-21 | a new agent has no client |
| BaseAgent.LlmClient.InitializeClient | backend/agents/base_agent.py:23-43 | set-up happens once; a failure leaves no client and re-raises its error |
| BaseAgent.LlmClient.CallLlm | backend/agents/base_agent.py:54-118 | a set-up error is raised without any call; otherwise the retry loop runs on the prompt built from the messages |
| ParserAgent.Execute | agents/parser_agent.py:87-115 | a reply whose cut parses is returned as the output |
| ParserAgent.FallbackNeedsClarification | agents/parser_agent.py:99-128 | on a parse failure or exception the output has the schema keys, flags clarification, keeps the raw text and has topic "unknown" |
| ParserAgent.FallbackSchema | agents/parser_agent.py:103-112 | the fallback has exactly the documented keys, in order |
| ParserAgent.FallbackFields | agents/parser_agent.py:103-112 | each fallback field holds the value it was given |
| ParserAgent.ReturnsParsedObject | agents/parser_agent.py:92-98 | for a reply of the form prefix + object + suffix, the output is the parsed object, unvalidated |
| ParserAgent.UnsliceableRawTextIsError | agents/parser_agent.py:44-47 | a raw text that cannot be sliced sends the agent to its exception fallback, with confidence 0 |
| IntentRouterAgent.Execute | agents/intent_router_agent.py:84-106 | a reply whose cut parses is returned as the output |
| IntentRouterAgent.ManualFields | agents/intent_router_agent.py:98-103 | the fallback strategy has the documented keys and values |
| IntentRouterAgent.FallbackIsManual | agents/intent_router_agent.py:95-115 | a parse failure or exception gives the manual fallback strategy |
| IntentRouterAgent.NonDictProblemIsError | agents/intent_router_agent.py:39-40 | a parsed problem that is not a dict raises an AttributeError |
| IntentRouterAgent.ReturnsParsedObject | agents/intent_router_agent.py:87-94 | an object embedded in the reply is what the agent returns |
| SolverAgent.SympyTool | agents/solver_agent.py:50-54 | the `result` variable's text, the no-result message, or the error text of the executed code |
| SolverAgent.DocEntries | agents/solver_agent.py:87-90 | the context entries succeed exactly when each document's does, one per document, in order |
| SolverAgent.ContextOfFirstTwo | agents/solver_agent.py:87-90 | the context is the blank-line join of the references of the first two documents |
| SolverAgent.SympyResultStored | agents/solver_agent.py:149-151 | with truthy `sympy_code`, the tool's text is stored under `sympy_result` and every other field is unchanged |
| SolverAgent.NoSympyCodeUnchanged | agents/solver_agent.py:149 | without truthy `sympy_code` the output is returned unchanged |
| SolverAgent.FallbackFields | agents/solver_agent.py:156-173 | the fallback solution has the documented keys and values |
| SolverAgent.Execute | agents/solver_agent.py:56-173 | an exception before or during the call gives the error output; a reply that does not parse gives the single-step fallback with confidence 0.3; a parsed reply goes through the sympy step, whose exception also gives the error output |
| SolverAgent.ParseFailureOutput | agents/solver_agent.py:153-161 | an unparsable reply becomes a single-step solution with confidence 0.3 |
| SolverAgent.ErrorOutputFields | agents/solver_agent.py:166-173 | the error solution has confidence 0 and the error text |
| SolverAgent.StringOutputWithCodeIsError | agents/solver_agent.py:149 | a parsed string that contains "sympy_code" raises Python's string-index TypeError |
| VerifierAgent.HitlOverride | backend/agents/verifier_agent.py:117-120 | succeeds only on a dict and yields a dict |
| VerifierAgent.FallbackFields | backend/agents/verifier_agent.py:125-144 | the fallback verdict has the documented keys and values |
| VerifierAgent.Execute | backend/agents/verifier_agent.py:23-144 | an exception before or during the call gives the error output; a reply that does not parse gives the parse fallback; a parsed reply goes through the confidence override, whose exception also gives the error output |
| VerifierAgent.AlwaysDict | backend/agents/verifier_agent.py:108-144 | the verifier's output is always a dict |
| VerifierAgent.LowConfidenceRequiresHitl | backend/agents/verifier_agent.py:118-120 | whenever the reported confidence is below the threshold, `requires_hitl` is true |
| VerifierAgent.OverrideNeverClears | backend/agents/verifier_agent.py:119-120 | the override either keeps the model's `requires_hitl` or sets it to true |
| VerifierAgent.ConfidentAnswerUnchanged | backend/agents/verifier_agent.py:118-120 | at or above the threshold the parsed verdict is returned unchanged |
| VerifierAgent.UnstructuredReply | backend/agents/verifier_agent.py:122-131 | any reply `json.loads` rejects gives an incorrect verdict with confidence 0.3 that requires review, with the reply's first 500 characters as the details |
| VerifierAgent.ThinkItsRight | backend/agents/verifier_agent.py:108-131 | a reply without braces is handed whole to `json.loads`, so "I think it's right" still requires human review and is kept as the details |
| VerifierAgent.ErrorOutputFields | backend/agents/verifier_agent.py:136-144 | the error verdict requires review and carries the error |
| ExplainerAgent.Execute | backend/agents/explainer_agent.py:91-114 | a reply whose cut parses is returned as the output |
| ExplainerAgent.FallbackFields | backend/agents/explainer_agent.py:106-123 | the fallback explanation has the documented keys and values |
| ExplainerAgent.ParseFailureOutput | backend/agents/explainer_agent.py:103-111 | an unparsable reply becomes the explanation text itself |
| ExplainerAgent.ErrorOutputFields | backend/agents/explainer_agent.py:116-123 | the error explanation carries the error text |
| ExplainerAgent.StepsOnePerLine | backend/agents/explainer_agent.py:79-80 | string steps without newlines are put in the prompt one per line, recoverable by splitting |
| ExplainerAgent.NonStringStepIsError | backend/agents/explainer_agent.py:79-123 | a non-string step makes the join raise, and the agent returns its error explanation |
| InputHandlers.TextOutputFields | backend/utils/input_handlers.py:282-294 | the text handler's result has the documented keys and values |
| InputHandlers.ProcessTextSpec | backend/utils/input_handlers.py:277-294 | blank text needs review with confidence 0; other text is stripped with confidence 1 |
| InputHandlers.Texts | backend/utils/input_handlers.py:94-95 | one text per detection, in order |
| InputHandlers.Confidences | backend/utils/input_handlers.py:94-96 | one confidence per detection, in order |
| InputHandlers.ImageOutputFields | backend/utils/input_handlers.py:105-110 | the OCR result has the documented keys and values |
| InputHandlers.OcrThreshold | backend/utils/input_handlers.py:96-101 | all detections at or above the threshold need no review; all below it do |
| InputHandlers.OcrFields | backend/utils/input_handlers.py:82-110 | no detections gives empty text, confidence 0 and review; otherwise the space-joined text and the mean confidence |
| InputHandlers.ImageInputHandler.constructor | backend/utils/input_handlers.py:31-33 | no reader loaded; the configured threshold |
| InputHandlers.ImageInputHandler.InitializeOcr | backend/utils/input_handlers.py:35-45 | loads the reader once; a load failure leaves it unloaded and raises |
| InputHandlers.ImageInputHandler.ProcessImage | backend/utils/input_handlers.py:47-119 | a load error gives the error result; otherwise the OCR result for the reading |
| InputHandlers.ApplyTableConcat | backend/utils/input_handlers.py:164-165 | applying two tables in sequence equals applying their concatenation |
| InputHandlers.ApplyTableAbsent | backend/utils/input_handlers.py:164-165 | entries whose phrase is absent leave the text unchanged |
| InputHandlers.DeadEntries | backend/utils/input_handlers.py:143-148 | dropping the "x squared" and "x cubed" entries changes no conversion |
| InputHandlers.ReplacePhrases | backend/utils/input_handlers.py:164-165 | the replacement loop applies the table's entries in order, each to the previous result |
| InputHandlers.ConvertMathPhrases | backend/utils/input_handlers.py:141-167 | the lower-casing and replacement loop computes the table conversion |
| InputHandlers.AudioOutputFields | backend/utils/input_handlers.py:245-251 | the transcription result has the documented keys and values |
| InputHandlers.TranscriptSpec | backend/utils/input_handlers.py:228-251 | confidence is the constant 0.85; review exactly when 0.85 is below the threshold; a string transcript is converted |
| InputHandlers.FallbackOnlyForFfmpeg | backend/utils/input_handlers.py:185-261 | only a missing ffmpeg leads to the fallback path; any other error is reported as it is |
| InputHandlers.FailedFallback | backend/utils/input_handlers.py:216-224 | a failing fallback gives the install-ffmpeg result |
| InputHandlers.AudioInputHandler.constructor | backend/utils/input_handlers.py:125-127 | no model loaded; the configured threshold |
| InputHandlers.AudioInputHandler.InitializeWhisper | backend/utils/input_handlers.py:129-139 | loads the model once; a load failure leaves it unloaded and raises |
| InputHandlers.AudioInputHandler.ProcessAudio | backend/utils/input_handlers.py:169-261 | a load error gives the error result; otherwise the transcription result |
| LegacyInputHandlers.AgreesOnStrings | utils/input_handlers.py:159-185 | on a string transcript the older handler gives the backend's result |
| LegacyInputHandlers.NonStringTranscriptIsError | utils/input_handlers.py:165-195 | a non-string transcript makes the older handler report an error |
| LegacyInputHandlers.ConstantConfidence | utils/input_handlers.py:173-175 | the older handler also reports confidence 0.85 |
| LegacyInputHandlers.AudioInputHandler.constructor | utils/input_handlers.py:105-107 | no model loaded; the configured threshold |
| LegacyInputHandlers.AudioInputHandler.ProcessAudio | utils/input_handlers.py:109-195 | a load error gives the error result; otherwise the older transcription result |
| Memory.InteractionId | backend/memory/memory_system.py:76-78 | the first 16 characters of the MD5 hex digest of `timestamp_raw_input` |
| Memory.SameKeySameId | backend/memory/memory_system.py:76-78 | equal timestamp and text give equal ids |
| Memory.WithIdFields | backend/memory/memory_system.py:80 | the stored record holds the id and every other field of the interaction unchanged |
| Memory.FirstWithIdSpec | backend/memory/memory_system.py:99-104 | finds a record exactly when some dict record has the id and every record before it is a dict without it, and returns that first record |
| Memory.AppendedIsFound | backend/memory/memory_system.py:83-103 | an appended record with a new id is found by its id |
| Memory.RecentIsLastN | backend/memory/memory_system.py:122 | for `n >= 1` the result is the last `min(n, len)` records |
| Memory.RecentZeroIsAll | backend/memory/memory_system.py:122 | `n == 0` returns the whole log |
| Memory.AbortPersists | backend/memory/memory_system.py:159-173 | an exception on any record aborts the whole search |
| Memory.KeepIndicesKept | backend/memory/memory_system.py:150-165 | every listed index holds a record the scan keeps |
| Memory.KeepIndicesIncreasing | backend/memory/memory_system.py:150-165 | the kept indices are in log order, each once |
| Memory.KeepIndicesCover | backend/memory/memory_system.py:150-165 | every record the scan keeps is listed |
| Memory.CandidatesComplete | backend/memory/memory_system.py:148-165 | the scan succeeds exactly when no record raises, and then holds exactly the kept records, one per kept index, in log order |
| Memory.NoAbortSnoc | backend/memory/memory_system.py:150-165 | one more record keeps the scan free of exceptions exactly when that record does not raise |
| Memory.CandidatesKept | backend/memory/memory_system.py:150-165 | every kept problem has the same topic and more than two shared keywords, and its score is that overlap |
| Memory.Insert | backend/memory/memory_system.py:168 | insertion keeps the items |
| Memory.SortByScore | backend/memory/memory_system.py:168 | sorting keeps the items |
| Memory.SortByScoreSpec | backend/memory/memory_system.py:168 | the sort is descending by score, a permutation, and stable |
| Memory.Records | backend/memory/memory_system.py:169 | one record per scored item, in order |
| Memory.SimilarSpec | backend/memory/memory_system.py:128-169 | the result is kept problems only, sorted best first, the first `min(n, kept)` of the stable sort |
| Memory.NonStringQueryFindsNothing | backend/memory/memory_system.py:146-173 | a non-string problem text raises inside the search, so nothing is found |
| Memory.LoadCorrections | backend/memory/memory_system.py:27-43 | the file's content, or the empty OCR and ASR maps when the file is missing or unreadable |
| Memory.SetCorrection | backend/memory/memory_system.py:188-191 | succeeds only on dicts |
| Memory.StoredCorrectionFields | backend/memory/memory_system.py:187-193 | a stored correction maps the original to the corrected text in its own map and leaves the other map alone |
| Memory.NoKeyUnchanged | backend/memory/memory_system.py:217-223 | corrections whose originals are absent leave the text unchanged |
| Memory.ApplyAllConcat | backend/memory/memory_system.py:218-220 | applying corrections is sequential in the dict's order |
| Memory.NewCorrectionAppliedLast | backend/memory/memory_system.py:189-220 | a newly learned correction is applied after the older ones |
| Memory.UpsertNewAppends | backend/memory/memory_system.py:189 | a new key goes to the end of the dict |
| Memory.SingleCorrectionRemoves | backend/memory/memory_system.py:219-220 | after one correction whose replacement shares no character with the original, the original no longer occurs |
| Memory.MemorySystem.constructor | backend/memory/memory_system.py:20-25 | starts from the stored log, the feedback and the loaded corrections |
| Memory.MemorySystem.StoreInteraction | backend/memory/memory_system.py:54-91 | a successful write appends the record with its id and returns the id; a failed one changes nothing and returns "" |
| Memory.MemorySystem.GetInteraction | backend/memory/memory_system.py:93-108 | the first record with the id, or none |
| Memory.MemorySystem.GetRecentInteractions | backend/memory/memory_system.py:110-126 | the recent slice of the log, or nothing without a log |
| Memory.MemorySystem.FindSimilarProblems | backend/memory/memory_system.py:128-173 | the loop computes the similar-problems specification |
| Memory.MemorySystem.StoreUserCorrection | backend/memory/memory_system.py:175-197 | stores the correction in memory and in the file when saving succeeds |
| Memory.MemorySystem.ApplyLearnedCorrections | backend/memory/memory_system.py:199-227 | the loop applies the learned corrections of that type, in order |
| Memory.MemorySystem.StoreFeedback | backend/memory/memory_system.py:229-258 | a successful write appends one feedback entry and changes nothing else |
| Orchestrator.SimilarIds | backend/utils/orchestrator.py:272 | ids can be read exactly when every similar problem is a dict, one per problem |
| Orchestrator.RagSources | backend/utils/orchestrator.py:286-289 | source entries succeed exactly when each document's does, in order |
| Orchestrator.FinishedTrace | backend/utils/orchestrator.py:127-260 | a finished run has the full stage trace, the parser's clarification flag and the memory's similar problems for the parsed text and topic |
| Orchestrator.NoticeInSuccessTrace | backend/utils/orchestrator.py:150-157 | the clarification notice appears in the success trace |
| Orchestrator.ConcludeSolved | backend/utils/orchestrator.py:278-294 | a solved result carries the run's outputs |
| Orchestrator.SolvedTrace | backend/utils/orchestrator.py:127-294 | a solved result's trace is the full stage trace; it has the clarification notice exactly when the flag is truthy |
| Orchestrator.StoredOnlyAfterExplainer | backend/utils/orchestrator.py:262-275 | only a finished run with a successful write adds a record, and it adds exactly one |
| Orchestrator.SimilarIdsReadable | backend/utils/orchestrator.py:161-272 | memory's similar problems always have readable ids |
| Orchestrator.FinishedRunIsStored | backend/utils/orchestrator.py:257-275 | every finished run is appended to the log |
| Orchestrator.SolvedWasStored | backend/utils/orchestrator.py:275-280 | a solved result's id finds the appended record; without a write the id is "" |
| Orchestrator.ErrorAfterStore | backend/utils/orchestrator.py:275-289 | a bad retrieved document fails the solve after the record was stored |
| Orchestrator.RequiresHitlIsVerifiers | backend/utils/orchestrator.py:292 | `requires_hitl` is the verifier's flag |
| Orchestrator.RagSourceOf | backend/utils/orchestrator.py:287 | a well-formed document gives its source and the first 200 characters of content |
| Orchestrator.RagSourcesTruncate | backend/utils/orchestrator.py:286-289 | well-formed documents always give one entry each, truncated |
| Orchestrator.ErrorClassification | backend/utils/orchestrator.py:299-331 | an error adds one trace entry; it is a quota error exactly when the message says so |
| Orchestrator.ParserFailureStoresNothing | backend/utils/orchestrator.py:133-141 | a failing parser stores nothing and stops after its start entry |
| Orchestrator.ImageTextIsString | backend/utils/orchestrator.py:77-78 | the OCR handler's `extracted_text` is always a string |
| Orchestrator.AudioTextIsString | backend/utils/orchestrator.py:80-81 | the speech handler's `transcript` is always a string |
| Orchestrator.HandledTextIsString | backend/utils/orchestrator.py:76-91 | for images and audio, the text that corrections read is always a string |
| Orchestrator.CorrectionsOnlyForImageAndAudio | backend/utils/orchestrator.py:86-92 | learned corrections apply to images and audio only and are stored as `corrected_text`, a non-string text unchanged; the other keys keep their values |
| Orchestrator.MathMentorOrchestrator.constructor | backend/utils/orchestrator.py:24-44 | an empty trace, a fresh memory and fresh handlers |
| Orchestrator.MathMentorOrchestrator.HandleError | backend/utils/orchestrator.py:299-331 | the classified error result; the trace is its trace |
| Orchestrator.MathMentorOrchestrator.RunStages | backend/utils/orchestrator.py:127-260 | the stage-by-stage trace and outputs of the pipeline specification |
| Orchestrator.MathMentorOrchestrator.SolveProblem | backend/utils/orchestrator.py:112-331 | the result and new log of the solve specification; feedback and corrections unchanged |
| Orchestrator.MathMentorOrchestrator.ProcessInput | backend/utils/orchestrator.py:56-110 | the handled and corrected input, two trace entries, and the lazily loaded models |
| Orchestrator.MathMentorOrchestrator.ApplyCorrections | backend/utils/orchestrator.py:86-92 | the corrected handler output |
| Orchestrator.MathMentorOrchestrator.SubmitFeedback | backend/utils/orchestrator.py:333-347 | appends the feedback entry when the write succeeds |
| Orchestrator.MathMentorOrchestrator.StoreCorrection | backend/utils/orchestrator.py:349-367 | stores the correction through memory |
| LegacyOrchestrator.ClarificationStopsEarly | utils/orchestrator.py:149-156 | an ambiguous problem returns "needs clarification" after the parser, storing nothing |
| LegacyOrchestrator.AgreesWithoutClarification | utils/orchestrator.py:127-259 | without the clarification flag the older pipeline runs the backend's |
| LegacyOrchestrator.EveryErrorFails | utils/orchestrator.py:297-308 | every stage error is a plain failure; there is no quota classification |
| LegacyOrchestrator.SolvedAgrees | utils/orchestrator.py:262-295 | a solved run gives the same result and the same stored log as the backend |
| LegacyOrchestrator.LegacyTranscriptIsString | utils/input_handlers.py:165-195 | the older handler's transcript is always a string |
| LegacyOrchestrator.LegacyHandledTextIsString | utils/orchestrator.py:76-91 | for images and audio, the text that corrections read is always a string |
| LegacyOrchestrator.LegacyMathMentorOrchestrator.constructor | utils/orchestrator.py:24-44 | an empty trace, a fresh memory and fresh handlers |
| LegacyOrchestrator.LegacyMathMentorOrchestrator.RunStages | utils/orchestrator.py:127-259 | the stage-by-stage trace and outputs of the older pipeline specification |
| LegacyOrchestrator.LegacyMathMentorOrchestrator.HandleError | utils/orchestrator.py:297-308 | the failure result with the failed entry appended to the trace |
| LegacyOrchestrator.LegacyMathMentorOrchestrator.SolveProblem | utils/orchestrator.py:112-308 | the result and new log of the older solve specification |
| LegacyOrchestrator.LegacyMathMentorOrchestrator.ProcessInput | utils/orchestrator.py:56-110 | the handled and corrected input and two trace entries |
| LegacyOrchestrator.LegacyMathMentorOrchestrator.ApplyCorrections | utils/orchestrator.py:86-92 | the corrected handler output |
| LegacyOrchestrator.LegacyMathMentorOrchestrator.SubmitFeedback | utils/orchestrator.py:310-324 | appends the feedback entry when the write succeeds |
| LegacyOrchestrator.LegacyMathMentorOrchestrator.StoreCorrection | utils/orchestrator.py:326-344 | stores the correction through memory |
| App.ValidateApiKey | backend/app.py:107-141 | valid exactly when the message is empty |
| App.CheckStripped | backend/app.py:118-141 | valid exactly when the message is empty |
| App.PatternOnStripped | backend/app.py:127-137 | on a stripped key the regular expression means exactly: prefix, length, character class |
| App.ValidIff | backend/app.py:107-141 | accepted exactly when the stripped key is non-empty and has its provider's shape |
| App.StrippedFirst | backend/app.py:121 | surrounding whitespace never changes the verdict or the message |
| App.OpenAiLengthMessages | backend/app.py:121-139 | for any key whose stripped form starts with `sk-`: under 40 characters is "too short"; 40 to 50, or over 51, is "invalid format" |
| App.OpenAiChecks | backend/app.py:130-139 | on a stripped key starting with `sk-`: under 40 characters is "too short"; any other length but 51 is "invalid format" |
| App.GeminiLengthMessage | backend/app.py:125-126 | a wrong-length Gemini key is told its length, which reads back from the message |
| App.ConfidenceBand | backend/app.py:295-302 | high from 0.8, medium from 0.6, low below; both directions |
| App.BandMonotone | backend/app.py:295-302 | a higher confidence never gets a lower band |
| App.DisplayConfidence | backend/app.py:295-302 | the span carries the band's CSS class |

## Left out

- Prompt wording, logging and Streamlit rendering: the text is not modelled. The rest of `backend/app.py` (session state, sidebar, pages) is user interface.
- `json.loads`, the MD5 digest, SymPy's `exec`, EasyOCR, Whisper, ffmpeg and the language model are foreign code. Each is a parameter whose results the model ranges over.
- `time.sleep` is recorded as the list of delays instead of waiting. Timestamps (`datetime.now`) are a parameter.
- Float formatting (`{:.2%}`, `str` of a float) is a parameter; `str` of an int, such as the daily-quota delay 3600, is modelled. NaN and infinities are not modelled. Confidences are reals.
- Lower-casing covers ASCII letters only. Unicode case mapping is not modelled.
- BaseAgent.MatchHere: `\d` and `float()` are modelled on ASCII digits only. The Unicode digits that Python also accepts are not modelled.
- The JSON file round trip of the log, feedback and corrections files: a write is a success flag, and a read gives the last written content.
- `memory/memory_system.py` is not part of this model. The older orchestrator is modelled with the backend `MemorySystem`.
- `agents/base_agent.py`, the OpenAI client that the top-level parser, router and solver inherit, is not part of this model. Those agents take the model's reply, or the exception raised, as their `response` parameter.
- Image opening (PIL, bytes or path) and OCR bounding boxes: the handler receives the detections directly.
- `initialize_rag`, vector-store creation and retrieval internals: retrieval is an oracle stage.
- LegacyInputHandlers.AudioInputHandler.ProcessAudio: the older lazy Whisper load (`utils/input_handlers.py:109-119`) is folded into this method as its `loadError` parameter.
- The older image and text handlers are identical to the backend ones apart from how the image is opened (left out above), and use the backend classes.
- Orchestrator.MathMentorOrchestrator.ProcessInput: the `except` branch is left out because it is unreachable: every handler catches `Exception` and returns a dict, and `apply_learned_corrections` catches its own exceptions.
- Aliasing: the interaction dict and the trace list that the code shares with its callers are copied as values.
- The `user_edited` argument of `solve_problem` is unused by the code and not modelled.
- `raise last_error` after the retry loop (`backend/agents/base_agent.py:115-117`): it cannot be reached, because every attempt returns or raises. The model goes straight to the "no attempts" error.
