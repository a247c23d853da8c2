/** The two pure helpers of the Streamlit front end (`backend/app.py`): the API-key format check
    and the colour band of a confidence. */
module App {
  import opened Text

  // ---------------------------------------------------------------------------------------
  // validate_api_key
  // ---------------------------------------------------------------------------------------

  /** `[A-Za-z0-9]` */
  predicate AsciiAlnum(c: char)
  {
    'A' <= c <= 'Z' || 'a' <= c <= 'z' || '0' <= c <= '9'
  }

  /** `[A-Za-z0-9_-]` */
  predicate GeminiKeyChar(c: char)
  {
    AsciiAlnum(c) || c == '_' || c == '-'
  }

  predicate AllIn(s: string, cls: char -> bool)
  {
    forall i :: 0 <= i < |s| ==> cls(s[i])
  }

  /** `re.match(r'^<prefix><cls>{<count>}$', s)`: the prefix, exactly `count` characters of the
      class, then the end of the string or (Python's `$`) a single newline that ends it. */
  predicate MatchesPattern(s: string, prefix: string, cls: char -> bool, count: nat)
  {
    var n := |prefix| + count;
    StartsWith(s, prefix) && n <= |s| && AllIn(s[|prefix|..n], cls) && (|s| == n || s[n..] == "\n")
  }

  const GeminiPrefix: string := "AIzaSy"
  const OpenAiPrefix: string := "sk-"

  /** `validate_api_key(api_key, provider)`: `(True, "")`, or `False` and the message of the first
      check the stripped key fails. */
  function ValidateApiKey(apiKey: string, provider: string): (r: (bool, string))
    ensures r.0 <==> r.1 == ""
  {
    CheckStripped(Strip(apiKey), provider)
  }

  const GeminiLengthPrefix: string := "Gemini API key should be 39 characters long (yours is "
  const EmptyKeyMessage: string := "API key cannot be empty"
  const GeminiStartMessage: string := "Gemini API key should start with 'AIzaSy'"
  const GeminiFormatMessage: string := "Invalid Gemini API key format"
  const OpenAiStartMessage: string := "OpenAI API key should start with 'sk-'"
  const OpenAiShortMessage: string := "OpenAI API key seems too short"
  const OpenAiFormatMessage: string := "Invalid OpenAI API key format"

  /** The checks of `validate_api_key` on the already stripped key. */
  function CheckStripped(key: string, provider: string): (r: (bool, string))
    ensures r.0 <==> r.1 == ""
  {
    if key == "" then (false, EmptyKeyMessage)
    else
      if provider == "gemini" then
        if !StartsWith(key, GeminiPrefix) then (false, GeminiStartMessage)
        else if |key| != 39 then (false, GeminiLengthPrefix + NatToString(|key|) + ")")
        else if !MatchesPattern(key, GeminiPrefix, GeminiKeyChar, 33) then (false, GeminiFormatMessage)
        else (true, "")
      else if provider == "openai" then
        if !StartsWith(key, OpenAiPrefix) then (false, OpenAiStartMessage)
        else if |key| < 40 then (false, OpenAiShortMessage)
        else if !MatchesPattern(key, OpenAiPrefix, AsciiAlnum, 48) then (false, OpenAiFormatMessage)
        else (true, "")
      else (true, "")
  }

  /** The key shapes the checks accept, written directly. */
  predicate GeminiKey(key: string)
  {
    |key| == 39 && key[..6] == GeminiPrefix && forall i :: 6 <= i < 39 ==> GeminiKeyChar(key[i])
  }

  predicate OpenAiKey(key: string)
  {
    |key| == 51 && key[..3] == OpenAiPrefix && forall i :: 3 <= i < 51 ==> AsciiAlnum(key[i])
  }

  /** After `strip()` the trailing newline that Python's `$` would let through cannot occur, so
      the pattern means exactly the direct shape. */
  lemma PatternOnStripped(key: string, prefix: string, cls: char -> bool, count: nat)
    requires key == [] || !IsSpace(key[|key| - 1])
    ensures MatchesPattern(key, prefix, cls, count)
            <==> StartsWith(key, prefix) && |key| == |prefix| + count
                 && forall i :: |prefix| <= i < |key| ==> cls(key[i])
  {
    var n := |prefix| + count;
    if MatchesPattern(key, prefix, cls, count) {
      forall i | |prefix| <= i < |key| ensures cls(key[i]) {
        assert key[i] == key[|prefix|..n][i - |prefix|];
      }
    }
    if StartsWith(key, prefix) && |key| == n && forall i :: |prefix| <= i < |key| ==> cls(key[i]) {
      forall j | 0 <= j < |key[|prefix|..n]| ensures cls(key[|prefix|..n][j]) {
        assert key[|prefix|..n][j] == key[|prefix| + j];
      }
    }
  }

  /** A key is accepted exactly when it is not blank and, for the two known providers, its
      stripped form has the provider's shape; any other provider accepts every non-blank key. */
  lemma ValidIff(apiKey: string, provider: string)
    ensures ValidateApiKey(apiKey, provider).0
            <==> Strip(apiKey) != ""
                 && (provider == "gemini" ==> GeminiKey(Strip(apiKey)))
                 && (provider == "openai" ==> OpenAiKey(Strip(apiKey)))
  {
    var key := Strip(apiKey);
    if key != [] {
      PatternOnStripped(key, GeminiPrefix, GeminiKeyChar, 33);
      PatternOnStripped(key, OpenAiPrefix, AsciiAlnum, 48);
    }
  }

  /** The key is stripped before every check: surrounding whitespace never changes the verdict
      or its message. */
  lemma StrippedFirst(apiKey: string, provider: string)
    ensures ValidateApiKey(Strip(apiKey), provider) == ValidateApiKey(apiKey, provider)
  {
    StripIdempotent(apiKey);
  }

  /** For OpenAI the length check only rejects keys under 40 characters: a key of 40 to 50
      characters (or longer than 51) that starts with `sk-` once stripped gets the format message
      instead. */
  lemma OpenAiLengthMessages(apiKey: string)
    requires StartsWith(Strip(apiKey), OpenAiPrefix)
    ensures |Strip(apiKey)| < 40 ==> ValidateApiKey(apiKey, "openai") == (false, OpenAiShortMessage)
    ensures 40 <= |Strip(apiKey)| && |Strip(apiKey)| != 51
            ==> ValidateApiKey(apiKey, "openai") == (false, OpenAiFormatMessage)
  {
    OpenAiChecks(Strip(apiKey));
  }

  lemma OpenAiChecks(key: string)
    requires key != [] && !IsSpace(key[|key| - 1]) && StartsWith(key, OpenAiPrefix)
    ensures |key| < 40 ==> CheckStripped(key, "openai") == (false, OpenAiShortMessage)
    ensures 40 <= |key| && |key| != 51 ==> CheckStripped(key, "openai") == (false, OpenAiFormatMessage)
  {
    PatternOnStripped(key, OpenAiPrefix, AsciiAlnum, 48);
  }

  /** For Gemini a stripped key of the right start but the wrong length is told its own length,
      which reads back from the message. */
  lemma GeminiLengthMessage(key: string)
    requires key != [] && StartsWith(key, GeminiPrefix) && |key| != 39
    ensures CheckStripped(key, "gemini") == (false, GeminiLengthPrefix + NatToString(|key|) + ")")
    ensures var m := CheckStripped(key, "gemini").1;
            |GeminiLengthPrefix| < |m| && DigitsValue(m[|GeminiLengthPrefix|..|m| - 1]) == |key|
  {
    var digits := NatToString(|key|);
    var m := GeminiLengthPrefix + digits + ")";
    assert m[|GeminiLengthPrefix|..|m| - 1] == digits;
    NatToStringRoundTrip(|key|);
  }

  // ---------------------------------------------------------------------------------------
  // display_confidence
  // ---------------------------------------------------------------------------------------

  datatype Band = High | Medium | Low
  {
    function Rank(): nat
    {
      match this
      case Low => 0
      case Medium => 1
      case High => 2
    }

    function CssClass(): string
    {
      match this
      case High => "confidence-high"
      case Medium => "confidence-medium"
      case Low => "confidence-low"
    }
  }

  /** The band `display_confidence` colours a confidence with. */
  function ConfidenceBand(confidence: real): (b: Band)
    ensures b == High <==> confidence >= 0.8
    ensures b == Medium <==> 0.6 <= confidence < 0.8
    ensures b == Low <==> confidence < 0.6
  {
    if confidence >= 0.8 then High
    else if confidence >= 0.6 then Medium
    else Low
  }

  /** A higher confidence is never shown in a lower band. */
  lemma BandMonotone(c1: real, c2: real)
    requires c1 <= c2
    ensures ConfidenceBand(c1).Rank() <= ConfidenceBand(c2).Rank()
  {
  }

  /** `display_confidence(confidence)`: `percent` is the `{confidence:.2%}` text, which the model
      takes as given. */
  function DisplayConfidence(confidence: real, percent: string): (html: string)
    ensures html == Span(ConfidenceBand(confidence).CssClass(), percent)
  {
    if confidence >= 0.8 then Span("confidence-high", percent)
    else if confidence >= 0.6 then Span("confidence-medium", percent)
    else Span("confidence-low", percent)
  }

  /** `<span class="{cls}">{text}</span>` */
  function Span(cls: string, text: string): string
  {
    "<span class=\"" + cls + "\">" + text + "</span>"
  }
}
