/** What every agent inherits: rendering chat messages into one prompt, the lazily created
    model client, the bounded retry loop around the model call, and reading the retry delay
    out of a quota error. The model itself is an oracle: `reply(prompt, attempt)` is what the
    `attempt`-th call of `generate_content` does. */
module BaseAgent {
  import opened Wrappers
  import Text

  /** A chat message; `None` stands for a missing `"role"` or `"content"` key. */
  datatype Message = Message(role: Option<string>, content: Option<string>)

  /** `f"{role}: {content}"` with `role` defaulting to `"user"` and `content` to `""`. */
  function Line(m: Message): string
  {
    m.role.GetOr("user") + ": " + m.content.GetOr("")
  }

  function Lines(messages: seq<Message>): (ls: seq<string>)
    ensures |ls| == |messages|
    ensures forall i :: 0 <= i < |messages| ==> ls[i] == Line(messages[i])
  {
    seq(|messages|, i requires 0 <= i < |messages| => Line(messages[i]))
  }

  /** `_messages_to_prompt`: one line per message, in order, joined by newlines. */
  method MessagesToPrompt(messages: seq<Message>) returns (prompt: string)
    ensures prompt == Text.Join(Lines(messages), "\n")
  {
    var parts: seq<string> := [];
    for i := 0 to |messages|
      invariant |parts| == i
      invariant forall j :: 0 <= j < i ==> parts[j] == Line(messages[j])
    {
      parts := parts + [Line(messages[i])];
    }
    assert parts == Lines(messages);
    prompt := Text.Join(parts, "\n");
  }

  /** Splitting the prompt at newlines gives back one line per message, when no role or
      content holds a newline. */
  lemma PromptLines(messages: seq<Message>)
    requires |messages| >= 1
    requires forall i :: 0 <= i < |messages| ==> '\n' !in messages[i].role.GetOr("user") && '\n' !in messages[i].content.GetOr("")
    ensures Text.SplitOn(Text.Join(Lines(messages), "\n"), '\n') == Lines(messages)
  {
    var ls := Lines(messages);
    forall i | 0 <= i < |ls|
      ensures '\n' !in ls[i]
    {
      assert ls[i] == messages[i].role.GetOr("user") + ": " + messages[i].content.GetOr("");
    }
    Text.SplitJoin(ls, '\n');
  }

  /** `"429" in msg or "quota" in msg.lower()`. Lower-casing ASCII letters is exact here:
      no other character lower-cases to a letter of "quota". */
  predicate IsQuotaMessage(msg: string)
  {
    Text.Contains(msg, "429") || Text.Contains(Text.Lower(msg), "quota")
  }

  predicate IsNumberChar(c: char)
  {
    Text.IsDigit(c) || c == '.'
  }

  /** Length of the leading run of characters from `[0-9.]`. */
  function NumberRun(s: string): (n: nat)
    ensures n <= |s|
    ensures forall i :: 0 <= i < n ==> IsNumberChar(s[i])
    ensures n == |s| || !IsNumberChar(s[n])
  {
    if s == [] || !IsNumberChar(s[0]) then 0 else 1 + NumberRun(s[1..])
  }

  const RetryMarker: string := "retry in "

  /** The pattern `retry in ([\d.]+)s` matches at the start of `s`, and its group. Since `s` is
      not in `[\d.]`, backtracking cannot find a shorter group, so the greedy run is the group. */
  function MatchHere(s: string): (g: Option<string>)
    ensures g.Some? ==> g.value != [] && (forall i :: 0 <= i < |g.value| ==> IsNumberChar(g.value[i]))
                        && Text.StartsWith(s, RetryMarker + g.value + "s")
  {
    if !Text.StartsWith(s, RetryMarker) then None
    else
      var t := s[|RetryMarker|..];
      var n := NumberRun(t);
      if 1 <= n < |t| && t[n] == 's' then Some(t[..n]) else None
  }

  /** The pattern matches at every "retry in " followed by a run of digits and dots and an `s`,
      and its group is that run. */
  lemma MatchHereOf(g: string, rest: string)
    requires g != [] && forall i :: 0 <= i < |g| ==> IsNumberChar(g[i])
    ensures MatchHere(RetryMarker + g + "s" + rest) == Some(g)
  {
    var s := RetryMarker + g + "s" + rest;
    var t := s[|RetryMarker|..];
    assert s[..|RetryMarker|] == RetryMarker;
    assert t == g + ("s" + rest);
    SpanNumber(g, "s" + rest);
    assert t[..|g|] == g && t[|g|] == 's';
  }

  /** A match of the pattern begins at index `i` of `msg`. */
  predicate MatchesAt(msg: string, i: int)
  {
    0 <= i <= |msg| && MatchHere(msg[i..]).Some?
  }

  /** `i` is where `re.search` finds its match: a match begins there and at no earlier index. */
  predicate LeftmostMatchAt(msg: string, i: int)
  {
    MatchesAt(msg, i) && forall j :: 0 <= j < i ==> !MatchesAt(msg, j)
  }

  /** `re.search(r'retry in ([\d.]+)s', msg).group(1)`: the group of the leftmost match. */
  function SearchRetry(msg: string): (g: Option<string>)
    ensures g.Some? ==> g.value != [] && forall i :: 0 <= i < |g.value| ==> IsNumberChar(g.value[i])
  {
    if msg == [] then None
    else if MatchHere(msg).Some? then MatchHere(msg)
    else SearchRetry(msg[1..])
  }

  lemma MatchesShift(msg: string, i: nat)
    requires msg != []
    ensures MatchesAt(msg, i + 1) <==> MatchesAt(msg[1..], i)
  {
    if i + 1 <= |msg| {
      assert msg[1..][i..] == msg[i + 1..];
    }
  }

  /** `re.search` semantics: no group exactly when the pattern matches nowhere, and otherwise the
      group of the match that begins leftmost. */
  lemma {:induction false} SearchRetrySpec(msg: string)
    ensures SearchRetry(msg).None? <==> forall i :: 0 <= i <= |msg| ==> !MatchesAt(msg, i)
    ensures SearchRetry(msg).Some? ==> exists i :: LeftmostMatchAt(msg, i)
    ensures forall i :: LeftmostMatchAt(msg, i) ==> SearchRetry(msg) == MatchHere(msg[i..])
    decreases |msg|
  {
    assert msg[0..] == msg;
    if msg == [] {
      assert !MatchesAt(msg, 0);
    } else if MatchHere(msg).Some? {
      assert LeftmostMatchAt(msg, 0);
    } else {
      var t := msg[1..];
      SearchRetrySpec(t);
      assert !MatchesAt(msg, 0);
      if SearchRetry(t).Some? {
        var k :| LeftmostMatchAt(t, k);
        MatchesShift(msg, k);
        forall j | 0 <= j < k + 1
          ensures !MatchesAt(msg, j)
        {
          if j > 0 {
            MatchesShift(msg, j - 1);
          }
        }
        assert LeftmostMatchAt(msg, k + 1);
      } else {
        forall i | 0 <= i <= |msg|
          ensures !MatchesAt(msg, i)
        {
          if i > 0 {
            MatchesShift(msg, i - 1);
          }
        }
      }
      forall i | LeftmostMatchAt(msg, i)
        ensures SearchRetry(msg) == MatchHere(msg[i..])
      {
        MatchesShift(msg, i - 1);
        forall j | 0 <= j < i - 1
          ensures !MatchesAt(t, j)
        {
          MatchesShift(msg, j);
        }
        assert LeftmostMatchAt(t, i - 1);
        assert t[i - 1..] == msg[i..];
      }
    }
  }

  function Pow10(k: nat): (p: nat)
    ensures p >= 1
  {
    if k == 0 then 1 else 10 * Pow10(k - 1)
  }

  /** `float(g)` for a string of digits and dots: the exact decimal value when there is at most
      one dot and at least one digit, else the `ValueError` message. */
  function ParseDecimal(g: string): (r: Result<real, string>)
    requires forall i :: 0 <= i < |g| ==> IsNumberChar(g[i])
    ensures r.Success? ==> r.value >= 0.0
    ensures r.Failure? ==> r.error == "could not convert string to float: '" + g + "'"
  {
    var fail := Failure("could not convert string to float: '" + g + "'");
    if '.' !in g then
      if g == [] then fail
      else
        DigitsWithoutDot(g);
        Success(Text.DigitsValue(g) as real)
    else
      var p := IndexOfDot(g);
      var whole := g[..p];
      var frac := g[p + 1..];
      if '.' in frac || |whole| + |frac| == 0 then fail
      else
        DigitsWithoutDot(whole);
        DigitsWithoutDot(frac);
        Success(DecimalValue(whole, frac))
  }

  /** The number written `w.f`. */
  function DecimalValue(w: string, f: string): (v: real)
    requires forall i :: 0 <= i < |w| ==> Text.IsDigit(w[i])
    requires forall i :: 0 <= i < |f| ==> Text.IsDigit(f[i])
    ensures v >= 0.0
  {
    Text.DigitsValue(w) as real + Text.DigitsValue(f) as real / Pow10(|f|) as real
  }

  /** `float()` of a run of digits: its value, and the `ValueError` for the empty string. */
  lemma ParseDecimalWhole(w: string)
    requires forall i :: 0 <= i < |w| ==> Text.IsDigit(w[i])
    ensures w == [] ==> ParseDecimal(w).Failure?
    ensures w != [] ==> ParseDecimal(w) == Success(Text.DigitsValue(w) as real)
  {
    assert forall i :: 0 <= i < |w| ==> w[i] != '.';
  }

  /** `float()` of digits, one dot and digits: `w + f / 10^|f|`, and the `ValueError` for a
      lone dot. */
  lemma ParseDecimalPoint(w: string, f: string)
    requires forall i :: 0 <= i < |w| ==> Text.IsDigit(w[i])
    requires forall i :: 0 <= i < |f| ==> Text.IsDigit(f[i])
    ensures w == [] && f == [] ==> ParseDecimal(w + "." + f).Failure?
    ensures w != [] || f != [] ==> ParseDecimal(w + "." + f) == Success(DecimalValue(w, f))
  {
    var g := w + "." + f;
    assert g[|w|] == '.';
    var p := IndexOfDot(g);
    assert g[..p] == w && g[p + 1..] == f;
    assert forall i :: 0 <= i < |f| ==> f[i] != '.';
  }

  /** `float()` of a group with two or more dots raises. */
  lemma ParseDecimalTwoDots(g: string, i: nat, j: nat)
    requires forall k :: 0 <= k < |g| ==> IsNumberChar(g[k])
    requires i < j < |g| && g[i] == '.' && g[j] == '.'
    ensures ParseDecimal(g).Failure?
  {
    var p := IndexOfDot(g);
    assert g[p + 1..][j - p - 1] == '.';
  }

  lemma DigitsWithoutDot(g: string)
    requires forall i :: 0 <= i < |g| ==> IsNumberChar(g[i])
    requires '.' !in g
    ensures forall i :: 0 <= i < |g| ==> Text.IsDigit(g[i])
  {
    forall i | 0 <= i < |g|
      ensures Text.IsDigit(g[i])
    {
      assert g[i] in g;
    }
  }

  function IndexOfDot(g: string): (p: nat)
    requires '.' in g
    ensures p < |g| && g[p] == '.' && '.' !in g[..p]
  {
    if g[0] == '.' then 0
    else
      assert '.' in g[1..] by {
        var i :| 0 <= i < |g| && g[i] == '.';
        assert g[1..][i - 1] == g[i];
      }
      var p := IndexOfDot(g[1..]);
      assert g[..p + 1] == [g[0]] + g[1..][..p];
      p + 1
  }

  const DailyQuotaMarker: string := "GenerateRequestsPerDayPerProjectPerModel"

  /** A delay as `_extract_retry_delay` returns it: the daily-quota branch returns the int `3600`,
      every other branch a float, and `str()` prints the two differently ("3600" against
      "3600.0"). */
  datatype Delay = WholeSecs(whole: nat) | FloatSecs(secs: real)
  {
    /** The seconds `time.sleep` waits. */
    function Seconds(): real
    {
      match this
      case WholeSecs(n) => n as real
      case FloatSecs(x) => x
    }
  }

  /** `float(group)` as a delay. */
  function FloatDelay(p: Result<real, string>): Result<Delay, string>
  {
    match p
    case Success(x) => Success(FloatSecs(x))
    case Failure(e) => Failure(e)
  }

  /** `_extract_retry_delay`: the number after "retry in" when present, else one hour for the
      daily-quota marker, else ten seconds. `float()` of a malformed group raises. */
  function ExtractRetryDelay(msg: string): (r: Result<Delay, string>)
    ensures SearchRetry(msg).None? ==> r.Success?
    ensures SearchRetry(msg).None? && Text.Contains(msg, DailyQuotaMarker) ==> r.value == WholeSecs(3600)
    ensures SearchRetry(msg).None? && !Text.Contains(msg, DailyQuotaMarker) ==> r.value == FloatSecs(10.0)
    ensures SearchRetry(msg).Some? ==> r == FloatDelay(ParseDecimal(SearchRetry(msg).value))
  {
    match SearchRetry(msg)
    case Some(g) => FloatDelay(ParseDecimal(g))
    case None => Success(if Text.Contains(msg, DailyQuotaMarker) then WholeSecs(3600) else FloatSecs(10.0))
  }

  /** `float(str(n))` is `n`. */
  lemma ParseDecimalNat(n: nat)
    ensures ParseDecimal(Text.NatToString(n)) == Success(n as real)
  {
    Text.NatToStringRoundTrip(n);
    var g := Text.NatToString(n);
    assert forall i :: 0 <= i < |g| ==> g[i] != '.';
  }

  /** The delay is `float()` of the group of the first "retry in <group>s" in the message. */
  lemma RetryDelayAfter(pre: string, g: string, rest: string)
    requires g != [] && forall i :: 0 <= i < |g| ==> IsNumberChar(g[i])
    requires forall i :: 0 <= i < |pre| ==> !MatchesAt(pre + RetryMarker + g + "s" + rest, i)
    ensures ExtractRetryDelay(pre + RetryMarker + g + "s" + rest) == FloatDelay(ParseDecimal(g))
  {
    var msg := pre + RetryMarker + g + "s" + rest;
    assert msg[|pre|..] == RetryMarker + g + "s" + rest;
    MatchHereOf(g, rest);
    assert LeftmostMatchAt(msg, |pre|);
    SearchRetrySpec(msg);
  }

  /** "Please retry in X.XXs": a delay `X.XX` after text holding no earlier match is read as the
      decimal number it spells. */
  lemma RetryDelayDecimal(pre: string, w: string, f: string, rest: string)
    requires forall i :: 0 <= i < |w| ==> Text.IsDigit(w[i])
    requires forall i :: 0 <= i < |f| ==> Text.IsDigit(f[i])
    requires w != [] || f != []
    requires forall i :: 0 <= i < |pre| ==> !MatchesAt(pre + RetryMarker + w + "." + f + "s" + rest, i)
    ensures ExtractRetryDelay(pre + RetryMarker + w + "." + f + "s" + rest)
            == Success(FloatSecs(DecimalValue(w, f)))
  {
    var g := w + "." + f;
    assert pre + RetryMarker + w + "." + f + "s" + rest == pre + RetryMarker + g + "s" + rest;
    RetryDelayAfter(pre, g, rest);
    ParseDecimalPoint(w, f);
  }

  /** No match can begin inside text that holds no `r`. */
  lemma NoMatchWithoutR(pre: string, rest: string)
    requires 'r' !in pre
    ensures forall i :: 0 <= i < |pre| ==> !MatchesAt(pre + rest, i)
  {
    forall i | 0 <= i < |pre|
      ensures !MatchesAt(pre + rest, i)
    {
      assert (pre + rest)[i..][0] == pre[i];
      assert pre[i] in pre;
    }
  }

  /** The documented form of the message. */
  lemma PleaseRetryExample()
    ensures ExtractRetryDelay("Please retry in 37.5s.") == Success(FloatSecs(37.5))
  {
    var rest := RetryMarker + "37" + "." + "5" + "s" + ".";
    NoMatchWithoutR("Please ", rest);
    assert "Please " + rest == "Please " + RetryMarker + "37" + "." + "5" + "s" + ".";
    PleaseRetrySpelling();
    RetryDelayDecimal("Please ", "37", "5", ".");
    ThirtySevenPointFive();
  }

  lemma PleaseRetrySpelling()
    ensures "Please " + RetryMarker + "37" + "." + "5" + "s" + "." == "Please retry in 37.5s."
  {
  }

  lemma ThirtySevenPointFive()
    ensures DecimalValue("37", "5") == 37.5
  {
    assert Text.DigitsValue("37") == 37 && Text.DigitsValue("5") == 5;
  }

  /** A message that begins "retry in <n>s" asks for exactly `n` seconds, as a float. */
  lemma RetryDelayFromMessage(n: nat, rest: string)
    ensures ExtractRetryDelay(RetryMarker + Text.NatToString(n) + "s" + rest) == Success(FloatSecs(n as real))
  {
    var g := Text.NatToString(n);
    assert [] + RetryMarker + g + "s" + rest == RetryMarker + g + "s" + rest;
    RetryDelayAfter([], g, rest);
    ParseDecimalNat(n);
  }

  /** The daily-quota branch: a message with the marker and no "retry in" asks for one hour as
      the int `3600`, which the final exception prints as "3600", however floats are rendered. */
  lemma DailyQuotaWaitsAnHour(msg: string, showFloat: real -> string)
    requires SearchRetry(msg).None? && Text.Contains(msg, DailyQuotaMarker)
    ensures ExtractRetryDelay(msg).Success? && ExtractRetryDelay(msg).value.Seconds() == 3600.0
    ensures QuotaExhaustedMessage(ExtractRetryDelay(msg).value, showFloat) == QuotaPrefix + "3600" + QuotaSuffix
  {
    ThirtySixHundred();
  }

  lemma ThirtySixHundred()
    ensures Text.NatToString(3600) == "3600"
  {
    assert Text.NatToString(3) == "3";
    assert Text.NatToString(36) == "36";
    assert Text.NatToString(360) == "360";
  }

  lemma {:induction false} SpanNumber(g: string, rest: string)
    requires forall i :: 0 <= i < |g| ==> IsNumberChar(g[i])
    requires rest == [] || !IsNumberChar(rest[0])
    ensures NumberRun(g + rest) == |g|
    decreases |g|
  {
    if g != [] {
      assert (g + rest)[1..] == g[1..] + rest;
      SpanNumber(g[1..], rest);
    } else {
      assert g + rest == rest;
    }
  }

  /** What one call of `generate_content` does. `Returned(None)` is a response without text. */
  datatype Reply = Returned(text: Option<string>) | Raised(message: string)

  const NoTextMessage: string := "Gemini response had no text content."
  const NoAttemptMessage: string := "Failed to call LLM after all retries"

  /** `str()` of a delay: an int prints as its digits; a float as `showFloat` renders it, which
      stands for Python's float repr. */
  function DelayText(d: Delay, showFloat: real -> string): string
  {
    match d
    case WholeSecs(n) => Text.NatToString(n)
    case FloatSecs(x) => showFloat(x)
  }

  /** The exception `_call_llm` raises once the last attempt hit the quota. */
  function QuotaExhaustedMessage(delay: Delay, showFloat: real -> string): string
  {
    QuotaPrefix + DelayText(delay, showFloat) + QuotaSuffix
  }

  const QuotaPrefix: string := "API " + QuotaWord + " exceeded. You've used all 20 requests for today. Please wait "
  const QuotaWord: string := "quota"
  const QuotaSuffix: string := " seconds or upgrade your plan at https://ai.google.dev/gemini-api/docs/rate-limits"

  /** The message of the exception one attempt ended with, if it did not return text. */
  function AttemptError(r: Reply): Option<string>
  {
    match r
    case Returned(Some(t)) => if t == [] then Some(NoTextMessage) else None
    case Returned(None) => Some(NoTextMessage)
    case Raised(m) => Some(m)
  }

  /** How one attempt ends: with text, with an error raised at once, or with a quota error that
      asks for a retry after `delay` seconds. */
  datatype Outcome = Answered(text: string) | GaveUp(error: string) | QuotaHit(delay: Delay)

  /** The decision `_call_llm` takes on one reply: a quota error is retried only when its delay
      can be read. */
  function AttemptOutcome(r: Reply): Outcome
  {
    match AttemptError(r)
    case None => Answered(r.text.value)
    case Some(e) =>
      if !IsQuotaMessage(e) then GaveUp(e)
      else match ExtractRetryDelay(e)
        case Failure(m) => GaveUp(m)
        case Success(d) => QuotaHit(d)
  }

  /** The observable record of one `_call_llm`: its result, the delays it slept, the calls it made. */
  datatype LlmRun = LlmRun(outcome: Result<string, string>, delays: seq<Delay>, calls: nat)

  /** `_call_llm` from attempt `attempt` on. */
  function CallLlmRun(reply: (string, nat) -> Reply, prompt: string, maxRetries: int, showFloat: real -> string, attempt: nat): LlmRun
    decreases maxRetries - attempt
  {
    if attempt >= maxRetries then LlmRun(Failure(NoAttemptMessage), [], 0)
    else
      match AttemptOutcome(reply(prompt, attempt))
      case Answered(t) => LlmRun(Success(t), [], 1)
      case GaveUp(e) => LlmRun(Failure(e), [], 1)
      case QuotaHit(d) =>
        if attempt < maxRetries - 1 then
          var rest := CallLlmRun(reply, prompt, maxRetries, showFloat, attempt + 1);
          LlmRun(rest.outcome, [d] + rest.delays, rest.calls + 1)
        else LlmRun(Failure(QuotaExhaustedMessage(d, showFloat)), [], 1)
  }

  /** The whole run, given the delays slept and the calls made before `rest` began. */
  function Resume(delays: seq<Delay>, calls: nat, rest: LlmRun): LlmRun
  {
    LlmRun(rest.outcome, delays + rest.delays, calls + rest.calls)
  }

  lemma ResumeRetry(delays: seq<Delay>, calls: nat, delay: Delay, rest: LlmRun)
    ensures Resume(delays, calls, LlmRun(rest.outcome, [delay] + rest.delays, rest.calls + 1))
         == Resume(delays + [delay], calls + 1, rest)
  {
    assert delays + ([delay] + rest.delays) == delays + [delay] + rest.delays;
  }

  /** At most `maxRetries` calls, a sleep before every call but the first, and text only
      when a call returned some. */
  lemma {:induction false} CallLlmBounds(reply: (string, nat) -> Reply, prompt: string, maxRetries: int, showFloat: real -> string, attempt: nat)
    ensures var run := CallLlmRun(reply, prompt, maxRetries, showFloat, attempt);
            (attempt < maxRetries ==> 1 <= run.calls <= maxRetries - attempt)
            && (attempt >= maxRetries ==> run.calls == 0)
            && |run.delays| + 1 == run.calls + (if attempt < maxRetries then 0 else 1)
            && (run.outcome.Success? ==> run.outcome.value != [] && exists k :: attempt <= k < attempt + run.calls && reply(prompt, k) == Returned(Some(run.outcome.value)))
    decreases maxRetries - attempt
  {
    if attempt < maxRetries {
      if AttemptOutcome(reply(prompt, attempt)).QuotaHit? && attempt < maxRetries - 1 {
        CallLlmBounds(reply, prompt, maxRetries, showFloat, attempt + 1);
      }
    }
  }

  /** With `max_retries <= 0` the model is never called. */
  lemma NoRetriesNoCall(reply: (string, nat) -> Reply, prompt: string, maxRetries: int, showFloat: real -> string)
    requires maxRetries <= 0
    ensures CallLlmRun(reply, prompt, maxRetries, showFloat, 0) == LlmRun(Failure(NoAttemptMessage), [], 0)
  {
  }

  /** A failure that is not about the quota is raised at once, without a retry. */
  lemma NonQuotaNotRetried(reply: (string, nat) -> Reply, prompt: string, maxRetries: int, showFloat: real -> string, attempt: nat)
    requires attempt < maxRetries
    requires AttemptError(reply(prompt, attempt)).Some? && !IsQuotaMessage(AttemptError(reply(prompt, attempt)).value)
    ensures CallLlmRun(reply, prompt, maxRetries, showFloat, attempt) == LlmRun(Failure(AttemptError(reply(prompt, attempt)).value), [], 1)
  {
  }

  /** A response with no or empty text is such a failure. */
  lemma EmptyTextNotRetried(reply: (string, nat) -> Reply, prompt: string, maxRetries: int, showFloat: real -> string)
    requires 0 < maxRetries
    requires reply(prompt, 0) == Returned(None) || reply(prompt, 0) == Returned(Some([]))
    ensures CallLlmRun(reply, prompt, maxRetries, showFloat, 0) == LlmRun(Failure(NoTextMessage), [], 1)
  {
    NoTextIsNotQuota();
    NonQuotaNotRetried(reply, prompt, maxRetries, showFloat, 0);
  }

  lemma NoTextLetters()
    ensures forall i :: 0 <= i < |NoTextMessage| ==>
      NoTextMessage[i] != '4' && NoTextMessage[i] != 'q' && NoTextMessage[i] != 'Q'
  {
  }

  lemma NoTextIsNotQuota()
    ensures !IsQuotaMessage(NoTextMessage)
  {
    NoTextLetters();
    assert '4' !in NoTextMessage && 'q' !in NoTextMessage && 'Q' !in NoTextMessage;
    Text.NotContainsMissingHead(NoTextMessage, "429");
    Text.LowerKeepsAbsent(NoTextMessage, 'q');
    Text.NotContainsMissingHead(Text.Lower(NoTextMessage), "quota");
  }

  /** When every attempt hits the quota, all `maxRetries` calls are made, the loop sleeps between
      them, and the final error mentions the quota. */
  lemma {:induction false} QuotaExhaustsAllAttempts(reply: (string, nat) -> Reply, prompt: string, maxRetries: int, showFloat: real -> string, attempt: nat)
    requires attempt < maxRetries
    requires forall k :: attempt <= k < maxRetries ==>
      AttemptError(reply(prompt, k)).Some? && IsQuotaMessage(AttemptError(reply(prompt, k)).value)
      && ExtractRetryDelay(AttemptError(reply(prompt, k)).value).Success?
    ensures var run := CallLlmRun(reply, prompt, maxRetries, showFloat, attempt);
            run.calls == maxRetries - attempt && |run.delays| == maxRetries - attempt - 1
            && run.outcome.Failure? && Text.Contains(run.outcome.error, "quota")
    decreases maxRetries - attempt
  {
    if attempt < maxRetries - 1 {
      QuotaExhaustsAllAttempts(reply, prompt, maxRetries, showFloat, attempt + 1);
    } else {
      assert AttemptOutcome(reply(prompt, attempt)).QuotaHit?;
      QuotaMessageMentionsQuota(AttemptOutcome(reply(prompt, attempt)).delay, showFloat);
    }
  }

  lemma QuotaMessageMentionsQuota(d: Delay, showFloat: real -> string)
    ensures Text.Contains(QuotaExhaustedMessage(d, showFloat), "quota")
  {
    Text.ContainsAt(QuotaWord, "quota", 0);
    Text.ContainsConcat("API ", QuotaWord, "quota");
    Text.ContainsConcat("API " + QuotaWord, " exceeded. You've used all 20 requests for today. Please wait ", "quota");
    var shown := DelayText(d, showFloat);
    Text.ContainsConcat(QuotaPrefix, shown + QuotaSuffix, "quota");
    assert QuotaExhaustedMessage(d, showFloat) == QuotaPrefix + (shown + QuotaSuffix);
  }

  /** The retry loop of `_call_llm` on a rendered prompt: it follows `CallLlmRun` call by call. */
  method RetryLoop(prompt: string, maxRetries: int, reply: (string, nat) -> Reply, showFloat: real -> string)
    returns (r: Result<string, string>, delays: seq<Delay>, calls: nat)
    ensures LlmRun(r, delays, calls) == CallLlmRun(reply, prompt, maxRetries, showFloat, 0)
  {
    ghost var full := CallLlmRun(reply, prompt, maxRetries, showFloat, 0);
    delays, calls := [], 0;
    var attempt: nat := 0;
    while attempt < maxRetries
      invariant attempt > 0 ==> attempt < maxRetries
      invariant calls == attempt
      invariant full == Resume(delays, attempt, CallLlmRun(reply, prompt, maxRetries, showFloat, attempt))
      decreases maxRetries - attempt
    {
      ghost var here := CallLlmRun(reply, prompt, maxRetries, showFloat, attempt);
      var response := reply(prompt, attempt);
      calls := calls + 1;
      var error: string;
      if response.Returned? && response.text.Some? && response.text.value != [] {
        assert AttemptOutcome(response) == Answered(response.text.value);
        return Success(response.text.value), delays, calls;
      } else if response.Returned? {
        error := NoTextMessage;
        NoTextIsNotQuota();
      } else {
        error := response.message;
      }
      assert AttemptError(response) == Some(error);
      if !IsQuotaMessage(error) {
        assert AttemptOutcome(response) == GaveUp(error);
        return Failure(error), delays, calls;
      }
      var retryDelay := ExtractRetryDelay(error);
      if retryDelay.Failure? {
        assert AttemptOutcome(response) == GaveUp(retryDelay.error);
        return Failure(retryDelay.error), delays, calls;
      }
      assert AttemptOutcome(response) == QuotaHit(retryDelay.value);
      if attempt == maxRetries - 1 {
        return Failure(QuotaExhaustedMessage(retryDelay.value, showFloat)), delays, calls;
      }
      ghost var rest := CallLlmRun(reply, prompt, maxRetries, showFloat, attempt + 1);
      assert here == LlmRun(rest.outcome, [retryDelay.value] + rest.delays, rest.calls + 1);
      ResumeRetry(delays, attempt, retryDelay.value, rest);
      delays := delays + [retryDelay.value];
      attempt := attempt + 1;
    }
    // Every pass returns or moves on to a further attempt, so the loop only ends without a
    // call, and `raise last_error` cannot be reached.
    r := Failure(NoAttemptMessage);
  }

  /** The model name used when none is configured. */
  const DefaultModel: string := "gemini-1.5-flash"

  /** `Config.GEMINI_MODEL or "gemini-1.5-flash"` */
  function ModelName(configured: string): (name: string)
    ensures name != []
    ensures configured != [] ==> name == configured
  {
    if configured == [] then DefaultModel else configured
  }

  /** The lazily created client of one agent: `model` is `None` until the first call creates it. */
  class LlmClient {
    var model: Option<string>

    constructor()
      ensures model == None
    {
      model := None;
    }

    /** `_initialize_client`: returns at once when the model exists; otherwise creates it, or
        raises `initError` leaving the field unset. */
    method InitializeClient(configured: string, initError: Option<string>) returns (r: Result<(), string>)
      modifies this
      ensures old(model).Some? ==> model == old(model) && r.Success?
      ensures old(model).None? && initError.None? ==> model == Some(ModelName(configured)) && r.Success?
      ensures old(model).None? && initError.Some? ==> model == None && r == Failure(initError.value)
    {
      if model.Some? {
        return Success(());
      }
      var name := ModelName(configured);
      if initError.Some? {
        return Failure(initError.value);
      }
      model := Some(name);
      r := Success(());
    }

    /** `_call_llm`: initialise, render the prompt, then try at most `maxRetries` times,
        retrying only quota failures. Returns the outcome, the delays slept and the calls made. */
    method CallLlm(messages: seq<Message>, maxRetries: int, reply: (string, nat) -> Reply,
                   configured: string, initError: Option<string>, showFloat: real -> string)
      returns (r: Result<string, string>, delays: seq<Delay>, calls: nat)
      modifies this
      ensures old(model).None? && initError.Some? ==> r == Failure(initError.value) && calls == 0 && model == None
      ensures old(model).Some? || initError.None? ==>
        model == (if old(model).Some? then old(model) else Some(ModelName(configured)))
        && LlmRun(r, delays, calls) == CallLlmRun(reply, Text.Join(Lines(messages), "\n"), maxRetries, showFloat, 0)
    {
      var init := InitializeClient(configured, initError);
      if init.Failure? {
        return Failure(init.error), [], 0;
      }
      var prompt := MessagesToPrompt(messages);
      r, delays, calls := RetryLoop(prompt, maxRetries, reply, showFloat);
    }
  }
}
