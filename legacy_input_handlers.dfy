/** The older input handlers (`utils/input_handlers.py`). Their text, OCR and phrase-table code
    is the backend's, modelled once in `InputHandlers`; only the audio handler differs: it has no
    ffmpeg fallback and hands Whisper's `text` to the phrase conversion whatever its type. */
module LegacyInputHandlers {
  import opened Wrappers
  import opened PyJson
  import PyDict
  import InputHandlers

  /** The answer for what `model.transcribe` gave, or the message of what it raised. */
  function AudioResult(transcribed: Result<Json, string>, threshold: real): Fields
  {
    match transcribed
    case Failure(m) => InputHandlers.AudioError(m)
    case Success(result) =>
      match Subscript(result, "text")
      case Failure(m) => InputHandlers.AudioError(m)
      case Success(raw) =>
        if !raw.JStr? then InputHandlers.AudioError(NoAttribute(raw, "lower"))
        else
          InputHandlers.AudioOutput(InputHandlers.Converted(raw.s), raw, InputHandlers.AsrConfidence,
                                    InputHandlers.AsrConfidence < threshold, InputHandlers.TranscribedMessage)
  }

  /** On a string transcript the older handler answers as the backend's does. */
  lemma AgreesOnStrings(result: Json, text: string, threshold: real, show: Json -> string)
    requires result.JObject? && PyDict.Lookup(result.fields, "text") == Some(JStr(text))
    ensures AudioResult(Success(result), threshold)
         == InputHandlers.AudioResult(InputHandlers.Transcribed(result), Failure(""), threshold, show)
  {
    PyDict.LookupFound(result.fields, "text");
  }

  /** A transcript that is not a string fails on `.lower()`: the answer is the error shape, with
      no text, confidence 0.0 and review required, where the backend would pass on its `str()`. */
  lemma NonStringTranscriptIsError(result: Json, threshold: real)
    requires result.JObject? && PyDict.Lookup(result.fields, "text").Some?
    requires !PyDict.Lookup(result.fields, "text").value.JStr?
    ensures var raw := PyDict.Lookup(result.fields, "text").value;
            var fs := AudioResult(Success(result), threshold);
            fs == InputHandlers.AudioError(NoAttribute(raw, "lower"))
            && FieldOr(fs, "transcript", JNull) == JStr("")
            && FieldOr(fs, "confidence", JNull) == JFloat(0.0)
            && FieldOr(fs, "needs_hitl", JNull) == JBool(true)
  {
    PyDict.LookupFound(result.fields, "text");
    var raw := PyDict.Lookup(result.fields, "text").value;
    InputHandlers.AudioOutputFields("", JStr(""), 0.0, true, "Error: " + NoAttribute(raw, "lower"));
  }

  /** Every transcript that converts gets confidence 0.85 and asks for review exactly when 0.85
      is below the threshold. */
  lemma ConstantConfidence(result: Json, threshold: real)
    requires result.JObject? && PyDict.Lookup(result.fields, "text").Some?
    requires PyDict.Lookup(result.fields, "text").value.JStr?
    ensures var fs := AudioResult(Success(result), threshold);
            FieldOr(fs, "confidence", JNull) == JFloat(0.85)
            && FieldOr(fs, "needs_hitl", JNull) == JBool(0.85 < threshold)
            && FieldOr(fs, "transcript", JNull) == JStr(InputHandlers.Converted(PyDict.Lookup(result.fields, "text").value.s))
  {
    PyDict.LookupFound(result.fields, "text");
    var raw := PyDict.Lookup(result.fields, "text").value;
    InputHandlers.AudioOutputFields(InputHandlers.Converted(raw.s), raw, 0.85, 0.85 < threshold,
                                    InputHandlers.TranscribedMessage);
  }

  /** The older `AudioInputHandler`, whose Whisper model is loaded on first use. */
  class AudioInputHandler {
    var modelLoaded: bool
    const confidenceThreshold: real

    constructor(threshold: real)
      ensures !modelLoaded && confidenceThreshold == threshold
    {
      modelLoaded := false;
      confidenceThreshold := threshold;
    }

    /** `process_audio`: `loadError` is what loading the model raised, `transcribed` what
        `model.transcribe` gave. */
    method ProcessAudio(loadError: Option<string>, transcribed: Result<Json, string>) returns (out: Fields)
      modifies this
      ensures modelLoaded == (old(modelLoaded) || loadError.None?)
      ensures !old(modelLoaded) && loadError.Some? ==> out == InputHandlers.AudioError(loadError.value)
      ensures old(modelLoaded) || loadError.None? ==> out == AudioResult(transcribed, confidenceThreshold)
    {
      if !modelLoaded {
        if loadError.Some? {
          return InputHandlers.AudioError(loadError.value);
        }
        modelLoaded := true;
      }
      if transcribed.Failure? {
        return InputHandlers.AudioError(transcribed.error);
      }
      var text := Subscript(transcribed.value, "text");
      if text.Failure? {
        return InputHandlers.AudioError(text.error);
      }
      var rawTranscript := text.value;
      if !rawTranscript.JStr? {
        return InputHandlers.AudioError(NoAttribute(rawTranscript, "lower"));
      }
      var convertedTranscript := InputHandlers.ConvertMathPhrases(rawTranscript.s);
      out := InputHandlers.AudioOutput(convertedTranscript, rawTranscript, InputHandlers.AsrConfidence,
                                       InputHandlers.AsrConfidence < confidenceThreshold,
                                       InputHandlers.TranscribedMessage);
    }
  }
}
