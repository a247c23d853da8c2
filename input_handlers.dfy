/** The input handlers of the backend: text cleaning, OCR result shaping and the ASR transcript
    with its spoken-phrase conversion. The OCR and ASR engines are oracles: what the reader
    detected, what Whisper returned, or the message of what they raised. */
module InputHandlers {
  import opened Wrappers
  import opened PyJson
  import PyDict
  import Text

  // ---------------------------------------------------------------------------------------
  // Text
  // ---------------------------------------------------------------------------------------

  function TextOutput(processed: string, confidence: real, needsHitl: bool, message: string): Fields
  {
    [("processed_text", JStr(processed)), ("confidence", JFloat(confidence)),
     ("needs_hitl", JBool(needsHitl)), ("message", JStr(message))]
  }

  /** `TextInputHandler.process_text`: the stripped text, or an empty-input answer asking for
      review; a value that is not a string fails on `.strip()`. */
  function ProcessText(text: Json): Fields
  {
    if !text.JStr? then TextOutput("", 0.0, true, "Error: " + NoAttribute(text, "strip"))
    else
      var processed := Text.Strip(text.s);
      if processed == [] then TextOutput("", 0.0, true, "Empty input")
      else TextOutput(processed, 1.0, false, "Text input processed successfully")
  }

  lemma TextOutputFields(processed: string, confidence: real, needsHitl: bool, message: string)
    ensures var fs := TextOutput(processed, confidence, needsHitl, message);
            PyDict.Keys(fs) == ["processed_text", "confidence", "needs_hitl", "message"]
            && FieldOr(fs, "processed_text", JNull) == JStr(processed)
            && FieldOr(fs, "confidence", JNull) == JFloat(confidence)
            && FieldOr(fs, "needs_hitl", JNull) == JBool(needsHitl)
            && FieldOr(fs, "message", JNull) == JStr(message)
  {
    var fs := TextOutput(processed, confidence, needsHitl, message);
    PyDict.LookupAt(fs, 0);
    PyDict.LookupAt(fs, 1);
    PyDict.LookupAt(fs, 2);
    PyDict.LookupAt(fs, 3);
  }

  /** Text input asks for review exactly when it is blank; otherwise it is passed on stripped,
      with full confidence. */
  lemma ProcessTextSpec(text: string)
    ensures var fs := ProcessText(JStr(text));
            FieldOr(fs, "needs_hitl", JNull) == JBool(Text.AllSpace(text))
            && FieldOr(fs, "processed_text", JNull) == JStr(Text.Strip(text))
            && FieldOr(fs, "confidence", JNull) == JFloat(if Text.AllSpace(text) then 0.0 else 1.0)
            && FieldOr(fs, "message", JNull)
               == JStr(if Text.AllSpace(text) then "Empty input" else "Text input processed successfully")
  {
    Text.StripBlank(text);
    var p := Text.Strip(text);
    if p == [] {
      TextOutputFields("", 0.0, true, "Empty input");
    } else {
      TextOutputFields(p, 1.0, false, "Text input processed successfully");
    }
  }

  // ---------------------------------------------------------------------------------------
  // OCR
  // ---------------------------------------------------------------------------------------

  /** One result of `reader.readtext(..., detail=1)`, without its bounding box. */
  datatype Detection = Detection(text: string, confidence: real)

  /** What reading the image gave: the detections in order, or the message of what opening the
      image or running the reader raised. */
  datatype OcrReading = Detected(detections: seq<Detection>) | OcrRaised(message: string)

  function ImageOutput(text: string, confidence: real, needsHitl: bool, message: string): Fields
  {
    [("extracted_text", JStr(text)), ("confidence", JFloat(confidence)),
     ("needs_hitl", JBool(needsHitl)), ("message", JStr(message))]
  }

  function Texts(ds: seq<Detection>): (ts: seq<string>)
    ensures |ts| == |ds| && forall i :: 0 <= i < |ds| ==> ts[i] == ds[i].text
  {
    seq(|ds|, i requires 0 <= i < |ds| => ds[i].text)
  }

  function Confidences(ds: seq<Detection>): (cs: seq<real>)
    ensures |cs| == |ds| && forall i :: 0 <= i < |ds| ==> cs[i] == ds[i].confidence
  {
    seq(|ds|, i requires 0 <= i < |ds| => ds[i].confidence)
  }

  /** `sum(xs)`, adding from the left. */
  function Sum(xs: seq<real>): real
  {
    if xs == [] then 0.0 else Sum(xs[..|xs| - 1]) + xs[|xs| - 1]
  }

  function Mean(xs: seq<real>): real
    requires xs != []
  {
    Sum(xs) / (|xs| as real)
  }

  /** The answer for the reader's detections: nothing detected asks for review; otherwise the
      texts joined by spaces, their mean confidence, and review when that mean is below the
      threshold. */
  function OcrResult(ds: seq<Detection>, threshold: real): Fields
  {
    if ds == [] then ImageOutput("", 0.0, true, NoTextDetectedMessage)
    else
      var mean := Mean(Confidences(ds));
      ImageOutput(Text.Join(Texts(ds), " "), mean, mean < threshold, OcrDoneMessage)
  }

  const OcrDoneMessage: string := "OCR completed successfully"
  const NoTextDetectedMessage: string := "No text detected in image"

  function ImageError(message: string): Fields
  {
    ImageOutput("", 0.0, true, "Error: " + message)
  }

  function ImageResult(reading: OcrReading, threshold: real): Fields
  {
    match reading
    case OcrRaised(m) => ImageError(m)
    case Detected(ds) => OcrResult(ds, threshold)
  }

  lemma ImageOutputFields(text: string, confidence: real, needsHitl: bool, message: string)
    ensures var fs := ImageOutput(text, confidence, needsHitl, message);
            PyDict.Keys(fs) == ["extracted_text", "confidence", "needs_hitl", "message"]
            && FieldOr(fs, "extracted_text", JNull) == JStr(text)
            && FieldOr(fs, "confidence", JNull) == JFloat(confidence)
            && FieldOr(fs, "needs_hitl", JNull) == JBool(needsHitl)
            && FieldOr(fs, "message", JNull) == JStr(message)
  {
    var fs := ImageOutput(text, confidence, needsHitl, message);
    PyDict.LookupAt(fs, 0);
    PyDict.LookupAt(fs, 1);
    PyDict.LookupAt(fs, 2);
    PyDict.LookupAt(fs, 3);
  }

  lemma {:induction false} SumAtLeast(xs: seq<real>, t: real)
    requires forall i :: 0 <= i < |xs| ==> xs[i] >= t
    ensures Sum(xs) >= (|xs| as real) * t
  {
    if xs != [] {
      SumAtLeast(xs[..|xs| - 1], t);
    }
  }

  lemma {:induction false} SumBelow(xs: seq<real>, t: real)
    requires xs != [] && forall i :: 0 <= i < |xs| ==> xs[i] < t
    ensures Sum(xs) < (|xs| as real) * t
  {
    if |xs| > 1 {
      SumBelow(xs[..|xs| - 1], t);
    }
  }

  lemma DivAtLeast(a: real, n: real, t: real)
    requires n > 0.0 && a >= n * t
    ensures a / n >= t
  {
    var q := a / n;
    assert q * n == a;
    if q < t {
      assert q * n < t * n;
    }
  }

  lemma DivBelow(a: real, n: real, t: real)
    requires n > 0.0 && a < n * t
    ensures a / n < t
  {
    var q := a / n;
    assert q * n == a;
    if q >= t {
      assert q * n >= t * n;
    }
  }

  /** The mean lies between the smallest and the largest confidence: when every detection
      reaches the threshold no review is asked, and when none does review is asked. */
  lemma OcrThreshold(ds: seq<Detection>, threshold: real)
    requires ds != []
    ensures (forall i :: 0 <= i < |ds| ==> ds[i].confidence >= threshold)
            ==> FieldOr(OcrResult(ds, threshold), "needs_hitl", JNull) == JBool(false)
    ensures (forall i :: 0 <= i < |ds| ==> ds[i].confidence < threshold)
            ==> FieldOr(OcrResult(ds, threshold), "needs_hitl", JNull) == JBool(true)
  {
    var cs := Confidences(ds);
    var n := |cs| as real;
    ImageOutputFields(Text.Join(Texts(ds), " "), Mean(cs), Mean(cs) < threshold, OcrDoneMessage);
    if forall i :: 0 <= i < |ds| ==> ds[i].confidence >= threshold {
      SumAtLeast(cs, threshold);
      DivAtLeast(Sum(cs), n, threshold);
    }
    if forall i :: 0 <= i < |ds| ==> ds[i].confidence < threshold {
      SumBelow(cs, threshold);
      DivBelow(Sum(cs), n, threshold);
    }
  }

  /** The answer carries every detected text, in detection order, and the exact mean. */
  lemma OcrFields(ds: seq<Detection>, threshold: real)
    ensures var fs := OcrResult(ds, threshold);
            PyDict.Keys(fs) == ["extracted_text", "confidence", "needs_hitl", "message"]
            && (ds == [] ==> FieldOr(fs, "extracted_text", JNull) == JStr("")
                             && FieldOr(fs, "confidence", JNull) == JFloat(0.0)
                             && FieldOr(fs, "needs_hitl", JNull) == JBool(true)
                             && FieldOr(fs, "message", JNull) == JStr(NoTextDetectedMessage))
            && (ds != [] ==> FieldOr(fs, "extracted_text", JNull) == JStr(Text.Join(Texts(ds), " "))
                             && FieldOr(fs, "confidence", JNull) == JFloat(Mean(Confidences(ds)))
                             && FieldOr(fs, "needs_hitl", JNull) == JBool(Mean(Confidences(ds)) < threshold))
  {
    if ds == [] {
      ImageOutputFields("", 0.0, true, NoTextDetectedMessage);
    } else {
      var mean := Mean(Confidences(ds));
      ImageOutputFields(Text.Join(Texts(ds), " "), mean, mean < threshold, OcrDoneMessage);
    }
  }

  /** `ImageInputHandler`, whose EasyOCR reader is created on first use. */
  class ImageInputHandler {
    var readerLoaded: bool
    const confidenceThreshold: real

    constructor(threshold: real)
      ensures !readerLoaded && confidenceThreshold == threshold
    {
      readerLoaded := false;
      confidenceThreshold := threshold;
    }

    /** `_initialize_ocr`: creates the reader only when there is none; `loadError` is what
        creating it raised, if anything. */
    method InitializeOcr(loadError: Option<string>) returns (r: Result<(), string>)
      modifies this
      ensures old(readerLoaded) ==> r.Success? && readerLoaded
      ensures !old(readerLoaded) ==> readerLoaded == loadError.None?
                                     && (loadError.Some? ==> r == Failure(loadError.value))
                                     && (loadError.None? ==> r.Success?)
    {
      if !readerLoaded {
        if loadError.Some? {
          return Failure(loadError.value);
        }
        readerLoaded := true;
      }
      r := Success(());
    }

    /** `process_image`: collects the texts and confidences of the detections in one pass. */
    method ProcessImage(loadError: Option<string>, reading: OcrReading) returns (out: Fields)
      modifies this
      ensures readerLoaded == (old(readerLoaded) || loadError.None?)
      ensures !old(readerLoaded) && loadError.Some? ==> out == ImageError(loadError.value)
      ensures old(readerLoaded) || loadError.None? ==> out == ImageResult(reading, confidenceThreshold)
    {
      var init := InitializeOcr(loadError);
      if init.Failure? {
        return ImageError(init.error);
      }
      if reading.OcrRaised? {
        return ImageError(reading.message);
      }
      var results := reading.detections;
      if results == [] {
        return ImageOutput("", 0.0, true, NoTextDetectedMessage);
      }
      var extractedLines: seq<string> := [];
      var confidences: seq<real> := [];
      for i := 0 to |results|
        invariant extractedLines == Texts(results[..i])
        invariant confidences == Confidences(results[..i])
      {
        extractedLines := extractedLines + [results[i].text];
        confidences := confidences + [results[i].confidence];
      }
      assert results[..|results|] == results;
      var avgConfidence := Sum(confidences) / (|confidences| as real);
      out := ImageOutput(Text.Join(extractedLines, " "), avgConfidence, avgConfidence < confidenceThreshold,
                         OcrDoneMessage);
    }
  }

  // ---------------------------------------------------------------------------------------
  // ASR
  // ---------------------------------------------------------------------------------------

  /** `_convert_math_phrases`' table, in its insertion order. */
  const Conversions: seq<(string, string)> := [
    ("square root of", "√"), ("squared", "²"), ("cubed", "³"), ("x squared", "x²"), ("x cubed", "x³"),
    ("plus", "+"), ("minus", "-"), ("times", "×"), ("multiplied by", "×"), ("divided by", "÷"),
    ("equals", "="), ("pi", "π"), ("theta", "θ"), ("alpha", "α"), ("beta", "β"), ("delta", "Δ"),
    ("sigma", "Σ")]

  /** Every phrase of a table replaced everywhere by its symbol, one entry after the other. */
  function ApplyTable(s: string, table: seq<(string, string)>): string
    decreases |table|
  {
    if table == [] then s else ApplyTable(Text.ReplaceAll(s, table[0].0, table[0].1), table[1..])
  }

  lemma ApplyTableStep(s: string, table: seq<(string, string)>)
    requires table != []
    ensures ApplyTable(s, table) == ApplyTable(Text.ReplaceAll(s, table[0].0, table[0].1), table[1..])
  {
  }

  lemma {:induction false} ApplyTableConcat(s: string, a: seq<(string, string)>, b: seq<(string, string)>)
    ensures ApplyTable(s, a + b) == ApplyTable(ApplyTable(s, a), b)
    decreases |a|
  {
    if a == [] {
      assert a + b == b;
    } else {
      assert (a + b)[0] == a[0] && (a + b)[1..] == a[1..] + b;
      ApplyTableConcat(Text.ReplaceAll(s, a[0].0, a[0].1), a[1..], b);
    }
  }

  /** Text in which no phrase of the table occurs passes through unchanged. */
  lemma {:induction false} ApplyTableAbsent(s: string, table: seq<(string, string)>)
    requires forall i :: 0 <= i < |table| ==> table[i].0 != [] && !Text.Contains(s, table[i].0)
    ensures ApplyTable(s, table) == s
    decreases |table|
  {
    if table != [] {
      Text.ReplaceAllAbsent(s, table[0].0, table[0].1);
      ApplyTableAbsent(s, table[1..]);
    }
  }

  /** "squared" is replaced before "x squared" and "cubed" before "x cubed", so those two entries
      never match: the table does what it would do without them, and "x squared" comes out as
      "x ²", never "x²". */
  lemma DeadEntries(s: string)
    ensures ApplyTable(s, Conversions) == ApplyTable(s, Conversions[..3] + Conversions[5..])
  {
    var s1 := Text.ReplaceAll(s, "square root of", "√");
    var s2 := Text.ReplaceAll(s1, "squared", "²");
    var s3 := Text.ReplaceAll(s2, "cubed", "³");
    Text.ReplaceAllRemoves(s1, "squared", "²");
    Text.ReplaceAllRemoves(s2, "cubed", "³");
    Text.ReplaceAllKeepsAbsent(s2, "cubed", "³", "squared");
    assert "x squared"[2..9] == "squared";
    assert "x cubed"[2..7] == "cubed";
    if Text.Contains(s3, "x squared") {
      Text.ContainsPart(s3, "x squared", 2, 9);
    }
    if Text.Contains(s3, "x cubed") {
      Text.ContainsPart(s3, "x cubed", 2, 7);
    }
    var head := Conversions[..3];
    var dead := Conversions[3..5];
    var tail := Conversions[5..];
    assert Conversions == head + dead + tail;
    assert ApplyTable(s, head) == s3 by {
      assert head == [("square root of", "√"), ("squared", "²"), ("cubed", "³")];
      assert ApplyTable(s, head) == ApplyTable(s1, head[1..]);
      assert ApplyTable(s1, head[1..]) == ApplyTable(s2, head[2..]);
      assert ApplyTable(s2, head[2..]) == ApplyTable(s3, []);
    }
    assert ApplyTable(s3, dead) == s3 by {
      ApplyTableAbsent(s3, dead);
    }
    ApplyTableConcat(s, head + dead, tail);
    ApplyTableConcat(s, head, dead);
    ApplyTableConcat(s, head, tail);
  }

  /** What `_convert_math_phrases` computes: the lower-cased text run through the table. */
  function Converted(text: string): string
  {
    ApplyTable(Text.Lower(text), Conversions)
  }

  /** `_convert_math_phrases` */
  method ConvertMathPhrases(text: string) returns (result: string)
    ensures result == Converted(text)
  {
    result := ReplacePhrases(Text.Lower(text), Conversions);
  }

  /** The replacement loop of `_convert_math_phrases`, over any table. */
  method ReplacePhrases(s: string, table: seq<(string, string)>) returns (result: string)
    ensures result == ApplyTable(s, table)
  {
    result := s;
    for i := 0 to |table|
      invariant ApplyTable(result, table[i..]) == ApplyTable(s, table)
    {
      ghost var rest := table[i..];
      ApplyTableStep(result, rest);
      assert rest[0] == table[i] && rest[1..] == table[i + 1..];
      var (phrase, symbol) := table[i];
      result := Text.ReplaceAll(result, phrase, symbol);
    }
  }

  /** What the direct `model.transcribe(audio_input)` gave: Whisper's result, or an exception,
      with whether it is one of the kinds the ffmpeg handler catches (`FileNotFoundError`,
      `RuntimeError`, `OSError`). */
  datatype Transcription = Transcribed(result: Json) | TranscribeRaised(caught: bool, message: string)

  /** The result of the librosa fallback, or the message of what it raised. */
  type FallbackTranscription = Result<Json, string>

  const AsrConfidence: real := 0.85

  function AudioOutput(transcript: string, raw: Json, confidence: real, needsHitl: bool, message: string): Fields
  {
    [("transcript", JStr(transcript)), ("raw_transcript", raw), ("confidence", JFloat(confidence)),
     ("needs_hitl", JBool(needsHitl)), ("message", JStr(message))]
  }

  const TranscribedMessage: string := "Audio transcription completed successfully"
  const FfmpegFailurePrefix: string := "Error: Audio transcription failed. Please install ffmpeg: 'brew install ffmpeg'. Details: "

  function AudioError(message: string): Fields
  {
    AudioOutput("", JStr(""), 0.0, true, "Error: " + message)
  }

  function FfmpegFailure(details: string): Fields
  {
    AudioOutput("", JStr(""), 0.0, true,
                FfmpegFailurePrefix + details)
  }

  /** The error text names a missing ffmpeg or a missing file. */
  predicate FfmpegMissing(message: string)
  {
    Text.Contains(Text.Lower(message), "ffmpeg") || Text.Contains(Text.Lower(message), "no such file")
  }

  /** The Whisper result used: the direct one, the librosa fallback's after a caught ffmpeg
      error, or the exception that reaches the outer handler. `None` means the fallback
      failed, which has its own answer. */
  function Transcript(direct: Transcription, fallback: FallbackTranscription): Option<Result<Json, string>>
  {
    match direct
    case Transcribed(r) => Some(Success(r))
    case TranscribeRaised(caught, m) =>
      if caught && FfmpegMissing(m) then
        (match fallback
         case Success(r) => Some(Success(r))
         case Failure(_) => None)
      else Some(Failure(m))
  }

  /** The answer for a transcript: the converted text when Whisper's `text` is a string, its
      `str()` otherwise, the constant confidence, and review when it is below the threshold. */
  function TranscriptOutput(raw: Json, threshold: real, show: Json -> string): Fields
  {
    var converted := if raw.JStr? then Converted(raw.s) else show(raw);
    AudioOutput(converted, raw, AsrConfidence, AsrConfidence < threshold, TranscribedMessage)
  }

  function AudioResult(direct: Transcription, fallback: FallbackTranscription, threshold: real, show: Json -> string): Fields
  {
    match Transcript(direct, fallback)
    case None => FfmpegFailure(fallback.error)
    case Some(Failure(m)) => AudioError(m)
    case Some(Success(result)) =>
      match Subscript(result, "text")
      case Failure(m) => AudioError(m)
      case Success(raw) => TranscriptOutput(raw, threshold, show)
  }

  lemma AudioOutputFields(transcript: string, raw: Json, confidence: real, needsHitl: bool, message: string)
    ensures var fs := AudioOutput(transcript, raw, confidence, needsHitl, message);
            PyDict.Keys(fs) == ["transcript", "raw_transcript", "confidence", "needs_hitl", "message"]
            && FieldOr(fs, "transcript", JNull) == JStr(transcript)
            && FieldOr(fs, "raw_transcript", JNull) == raw
            && FieldOr(fs, "confidence", JNull) == JFloat(confidence)
            && FieldOr(fs, "needs_hitl", JNull) == JBool(needsHitl)
            && FieldOr(fs, "message", JNull) == JStr(message)
  {
    var fs := AudioOutput(transcript, raw, confidence, needsHitl, message);
    PyDict.LookupAt(fs, 0);
    PyDict.LookupAt(fs, 1);
    PyDict.LookupAt(fs, 2);
    PyDict.LookupAt(fs, 3);
    PyDict.LookupAt(fs, 4);
  }

  /** Every transcript gets confidence 0.85, and asks for review exactly when 0.85 is below the
      threshold; a string transcript is converted, any other is only `str()`-ed. */
  lemma TranscriptSpec(raw: Json, threshold: real, show: Json -> string)
    ensures var fs := TranscriptOutput(raw, threshold, show);
            FieldOr(fs, "confidence", JNull) == JFloat(0.85)
            && FieldOr(fs, "needs_hitl", JNull) == JBool(0.85 < threshold)
            && FieldOr(fs, "raw_transcript", JNull) == raw
            && FieldOr(fs, "transcript", JNull) == JStr(if raw.JStr? then Converted(raw.s) else show(raw))
  {
    var converted := if raw.JStr? then Converted(raw.s) else show(raw);
    AudioOutputFields(converted, raw, AsrConfidence, AsrConfidence < threshold, TranscribedMessage);
  }

  /** The fallback is used only after a caught error that names ffmpeg or a missing file; any
      other error is answered with its own message, whatever the fallback would have done. */
  lemma FallbackOnlyForFfmpeg(caught: bool, message: string, fallback: FallbackTranscription, threshold: real, show: Json -> string)
    requires !(caught && FfmpegMissing(message))
    ensures AudioResult(TranscribeRaised(caught, message), fallback, threshold, show) == AudioError(message)
  {
  }

  /** A caught ffmpeg error followed by a failing fallback gives the install hint with the
      fallback's message. */
  lemma FailedFallback(message: string, details: string, threshold: real, show: Json -> string)
    requires FfmpegMissing(message)
    ensures AudioResult(TranscribeRaised(true, message), Failure(details), threshold, show) == FfmpegFailure(details)
  {
  }

  /** `AudioInputHandler`, whose Whisper model is loaded on first use. */
  class AudioInputHandler {
    var modelLoaded: bool
    const confidenceThreshold: real

    constructor(threshold: real)
      ensures !modelLoaded && confidenceThreshold == threshold
    {
      modelLoaded := false;
      confidenceThreshold := threshold;
    }

    /** `_initialize_whisper`: loads the model only when there is none. */
    method InitializeWhisper(loadError: Option<string>) returns (r: Result<(), string>)
      modifies this
      ensures old(modelLoaded) ==> r.Success? && modelLoaded
      ensures !old(modelLoaded) ==> modelLoaded == loadError.None?
                                    && (loadError.Some? ==> r == Failure(loadError.value))
                                    && (loadError.None? ==> r.Success?)
    {
      if !modelLoaded {
        if loadError.Some? {
          return Failure(loadError.value);
        }
        modelLoaded := true;
      }
      r := Success(());
    }

    /** `process_audio` */
    method ProcessAudio(loadError: Option<string>, direct: Transcription, fallback: FallbackTranscription,
                        show: Json -> string)
      returns (out: Fields)
      modifies this
      ensures modelLoaded == (old(modelLoaded) || loadError.None?)
      ensures !old(modelLoaded) && loadError.Some? ==> out == AudioError(loadError.value)
      ensures old(modelLoaded) || loadError.None? ==> out == AudioResult(direct, fallback, confidenceThreshold, show)
    {
      var init := InitializeWhisper(loadError);
      if init.Failure? {
        return AudioError(init.error);
      }
      var transcript := Transcript(direct, fallback);
      if transcript.None? {
        return FfmpegFailure(fallback.error);
      }
      if transcript.value.Failure? {
        return AudioError(transcript.value.error);
      }
      var result := transcript.value.value;
      var text := Subscript(result, "text");
      if text.Failure? {
        return AudioError(text.error);
      }
      var rawTranscript := text.value;
      var convertedTranscript: string;
      if rawTranscript.JStr? {
        convertedTranscript := ConvertMathPhrases(rawTranscript.s);
      } else {
        convertedTranscript := show(rawTranscript);
      }
      out := AudioOutput(convertedTranscript, rawTranscript, AsrConfidence, AsrConfidence < confidenceThreshold,
                         TranscribedMessage);
    }
  }
}
