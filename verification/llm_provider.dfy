/**
 * The pure parts of the Gemini adapter in `llm_dev1/llm_provider.py`: message conversion, the
 * output-token clamp, finish-reason descriptions and the post-processing of the model's reply,
 * and the `chat` flow that feeds the usage tracker. The SDK's answers (its token counts, its
 * reply, or the exception it raised) are parameters.
 */
module LlmProvider {
  import opened Wrappers
  import opened Schemas
  import UsageTracker

  // ---------------------------------------------------------------------------------------------
  // Message conversion

  /** A message as the adapter receives it: a dictionary whose keys may be missing. */
  datatype RawMessage = RawMessage(role: Option<string>, content: Option<string>)

  /** One entry of the Gemini `contents` list. */
  datatype GeminiContent = GeminiContent(role: string, parts: seq<string>)

  /** The conversion of one message: `assistant` speaks as `model`, everyone else as `user`. */
  function ConvertMessage(m: RawMessage): (c: GeminiContent)
    ensures c.role == "model" <==> m.role == Some("assistant")
    ensures c.role == "user" <==> m.role != Some("assistant")
    ensures |c.parts| == 1
    ensures m.content.Some? ==> c.parts[0] == m.content.value
    ensures m.content.None? ==> c.parts[0] == ""
  {
    GeminiContent(if m.role == Some("assistant") then "model" else "user", [m.content.GetOr("")])
  }

  /** `_to_gemini_contents`: convert every message, keeping the order. */
  method ToGeminiContents(messages: seq<RawMessage>) returns (contents: seq<GeminiContent>)
    ensures |contents| == |messages|
    ensures forall i :: 0 <= i < |messages| ==> contents[i] == ConvertMessage(messages[i])
  {
    contents := [];
    var k := 0;
    while k < |messages|
      invariant 0 <= k <= |messages|
      invariant |contents| == k
      invariant forall i :: 0 <= i < k ==> contents[i] == ConvertMessage(messages[i])
    {
      var m := messages[k];
      var role := if m.role == Some("assistant") then "model" else "user";
      contents := contents + [GeminiContent(role, [m.content.GetOr("")])];
      k := k + 1;
    }
  }

  // ---------------------------------------------------------------------------------------------
  // Generation settings

  const DefaultMaxTokens: int := 512
  const MaxTokensCeiling: int := 10_000

  /** `min(max_tokens or 512, 10000)`: Python's `or` replaces both `None` and `0` by 512. */
  function MaxOutputTokens(maxTokens: Option<int>): (r: int)
    ensures r <= MaxTokensCeiling
    ensures (maxTokens.None? || maxTokens == Some(0)) ==> r == DefaultMaxTokens
    ensures maxTokens.Some? && maxTokens.value != 0 && maxTokens.value <= MaxTokensCeiling ==> r == maxTokens.value
    ensures maxTokens.Some? && maxTokens.value > MaxTokensCeiling ==> r == MaxTokensCeiling
  {
    var requested := if maxTokens.None? || maxTokens.value == 0 then DefaultMaxTokens else maxTokens.value;
    if requested < MaxTokensCeiling then requested else MaxTokensCeiling
  }

  /** Clamping an already clamped value changes nothing. */
  lemma MaxOutputTokensIdempotent(maxTokens: Option<int>)
    ensures MaxOutputTokens(Some(MaxOutputTokens(maxTokens))) == MaxOutputTokens(maxTokens)
  {
  }

  /** The settings passed to the model call. */
  datatype GenerationConfig = GenerationConfig(temperature: real, maxOutputTokens: int)

  // ---------------------------------------------------------------------------------------------
  // Decimal text of integers (Python's `str(int)` inside an f-string)

  function DigitChar(d: nat): (c: char)
    requires d < 10
  {
    "0123456789"[d]
  }

  function DigitValue(c: char): nat {
    if '0' <= c <= '9' then (c as int - '0' as int) as nat else 0
  }

  predicate IsDigit(c: char) {
    '0' <= c <= '9'
  }

  /** The decimal digits of a natural number, most significant first, without leading zeros. */
  function NatDigits(n: nat): (s: string)
    ensures |s| > 0 && forall i :: 0 <= i < |s| ==> IsDigit(s[i])
    decreases n
  {
    if n < 10 then [DigitChar(n)] else NatDigits(n / 10) + [DigitChar(n % 10)]
  }

  /** The value of a string of decimal digits. */
  function ParseDigits(s: string): nat
    decreases |s|
  {
    if |s| == 0 then 0 else 10 * ParseDigits(s[..|s| - 1]) + DigitValue(s[|s| - 1])
  }

  /** Reading the digits back gives the number. */
  lemma {:induction false} ParseNatDigits(n: nat)
    ensures ParseDigits(NatDigits(n)) == n
    decreases n
  {
    if n >= 10 {
      var s := NatDigits(n);
      ParseNatDigits(n / 10);
      assert s[..|s| - 1] == NatDigits(n / 10);
    }
  }

  /** `str(n)` for an integer. */
  function IntToDecimal(n: int): (s: string)
    ensures |s| > 0
    ensures n >= 0 ==> IsDigit(s[0])
    ensures n < 0 ==> s[0] == '-'
  {
    if n < 0 then "-" + NatDigits(-n) else NatDigits(n)
  }

  /** Different natural numbers have different digit strings. */
  lemma NatDigitsInjective(a: nat, b: nat)
    requires NatDigits(a) == NatDigits(b)
    ensures a == b
  {
    ParseNatDigits(a);
    ParseNatDigits(b);
  }

  /** Different integers have different decimal texts. */
  lemma IntToDecimalInjective(a: int, b: int)
    requires IntToDecimal(a) == IntToDecimal(b)
    ensures a == b
  {
    if a < 0 && b < 0 {
      assert NatDigits(-a) == IntToDecimal(a)[1..];
      assert NatDigits(-b) == IntToDecimal(b)[1..];
      NatDigitsInjective(-a, -b);
    } else if a >= 0 && b >= 0 {
      NatDigitsInjective(a, b);
    }
  }

  // ---------------------------------------------------------------------------------------------
  // Finish reasons

  const UnknownReasonPrefix: string := "알 수 없음 ("

  /** `_describe_finish_reason`: fixed texts for codes 0 to 5, and the code itself otherwise. */
  function DescribeFinishReason(code: int): (d: string)
    ensures code == 0 ==> d == "미지정"
    ensures code == 1 ==> d == "정상 완료"
    ensures code == 2 ==> d == "MAX_TOKENS (최대 토큰 수 도달)"
    ensures code == 3 ==> d == "SAFETY (안전성 위반)"
    ensures code == 4 ==> d == "RECITATION (복사/붙여넣기 감지)"
    ensures code == 5 ==> d == "기타 오류"
    ensures !(0 <= code <= 5) ==> d == UnknownReasonPrefix + IntToDecimal(code) + ")"
  {
    match code
    case 0 => "미지정"
    case 1 => "정상 완료"
    case 2 => "MAX_TOKENS (최대 토큰 수 도달)"
    case 3 => "SAFETY (안전성 위반)"
    case 4 => "RECITATION (복사/붙여넣기 감지)"
    case 5 => "기타 오류"
    case _ => UnknownReasonPrefix + IntToDecimal(code) + ")"
  }

  /** No two finish reasons share a description. */
  lemma DescribeFinishReasonInjective(a: int, b: int)
    requires DescribeFinishReason(a) == DescribeFinishReason(b)
    ensures a == b
  {
    var da, db := DescribeFinishReason(a), DescribeFinishReason(b);
    if !(0 <= a <= 5) && !(0 <= b <= 5) {
      var n := |UnknownReasonPrefix|;
      assert da[n..|da| - 1] == IntToDecimal(a);
      assert db[n..|db| - 1] == IntToDecimal(b);
      IntToDecimalInjective(a, b);
    } else {
      assert da[0] == db[0];
    }
  }

  // ---------------------------------------------------------------------------------------------
  // Post-processing of the model's reply

  const MaxTokensReason: int := 2
  const SafetyReason: int := 3
  const RecitationReason: int := 4
  const OtherReason: int := 5

  /** Below this many output tokens a MAX_TOKENS stop gets no truncation notice. */
  const ShortReplyTokens: int := 50

  const TruncationNotice: string := "\n\n⚠️ 응답이 길어 중간에 잘렸을 수 있어요."
  const SafetyNotice: string := "⚠️ 안전 정책에 의해 응답이 차단됐습니다."
  const RecitationNotice: string := "⚠️ 복사된 콘텐츠가 감지돼 응답이 제한되었습니다."
  const ErrorNotice: string := "\n\n⚠️ Gemini 응답 오류가 감지되었습니다."
  const EmptyReplyFallback: string := "⚠️ Gemini가 응답을 생성하지 못했습니다. 질문을 다시 시도해 보세요."

  /** The reply text after the finish-reason rules. */
  function ApplyFinishReason(text: string, reason: Option<int>, tokensOutput: int): (r: string)
    ensures reason == Some(SafetyReason) ==> r == SafetyNotice
    ensures reason == Some(RecitationReason) ==> r == RecitationNotice
    ensures reason == Some(OtherReason) ==> r == text + ErrorNotice
    ensures reason == Some(MaxTokensReason) && tokensOutput >= ShortReplyTokens ==> r == text + TruncationNotice
    ensures reason == Some(MaxTokensReason) && tokensOutput < ShortReplyTokens ==> r == text
    ensures reason.None? || !(MaxTokensReason <= reason.value <= OtherReason) ==> r == text
  {
    if reason == Some(MaxTokensReason) && tokensOutput >= ShortReplyTokens then text + TruncationNotice
    else if reason == Some(MaxTokensReason) then text
    else if reason == Some(SafetyReason) then SafetyNotice
    else if reason == Some(RecitationReason) then RecitationNotice
    else if reason == Some(OtherReason) then text + ErrorNotice
    else text
  }

  /** Unless the reply was blocked, the model's own text is kept at the front. */
  lemma FinishReasonKeepsText(text: string, reason: Option<int>, tokensOutput: int)
    requires reason != Some(SafetyReason) && reason != Some(RecitationReason)
    ensures text <= ApplyFinishReason(text, reason, tokensOutput)
  {
  }

  /** The output text and token count the adapter reports. */
  datatype Reply = Reply(text: string, tokensOutput: int)

  /** An empty final text becomes the fallback message and counts zero output tokens. */
  function Finalize(text: string, tokensOutput: int): (r: Reply)
    ensures |r.text| > 0
    ensures |text| == 0 ==> r == Reply(EmptyReplyFallback, 0)
    ensures |text| > 0 ==> r == Reply(text, tokensOutput)
  {
    if |text| == 0 then Reply(EmptyReplyFallback, 0) else Reply(text, tokensOutput)
  }

  /**
   * `_count_tokens`: the SDK's count when it answers, otherwise `len(text) // 2`.
   */
  function CountTokens(text: string, sdkCount: Option<int>): (n: int)
    ensures sdkCount.Some? ==> n == sdkCount.value
    ensures sdkCount.None? ==> 0 <= 2 * n <= |text| <= 2 * n + 1
  {
    if sdkCount.Some? then sdkCount.value else |text| / 2
  }

  /**
   * The first candidate of a model response: its finish reason (absent when the SDK gives none),
   * its extracted text with surrounding whitespace already stripped, and the SDK's count of that
   * text's tokens (absent when counting failed).
   */
  datatype Candidate = Candidate(finishReason: Option<int>, text: string, sdkTokenCount: Option<int>)

  /** The reply built from the response's first candidate, or from none. */
  function ProcessReply(candidate: Option<Candidate>): (r: Reply)
    ensures |r.text| > 0
    ensures candidate.None? ==> r == Reply(EmptyReplyFallback, 0)
    ensures candidate.Some? && r.text != EmptyReplyFallback ==>
              r.tokensOutput == CountTokens(candidate.value.text, candidate.value.sdkTokenCount)
    ensures candidate.Some? && candidate.value.finishReason == Some(SafetyReason) ==> r.text == SafetyNotice
    ensures candidate.Some? ==>
              var c := candidate.value;
              var tokens := CountTokens(c.text, c.sdkTokenCount);
              var annotated := ApplyFinishReason(c.text, c.finishReason, tokens);
              && (|annotated| > 0 ==> r == Reply(annotated, tokens))
              && (|annotated| == 0 ==> r == Reply(EmptyReplyFallback, 0))
  {
    match candidate
    case None => Finalize("", 0)
    case Some(c) =>
      var tokens := CountTokens(c.text, c.sdkTokenCount);
      Finalize(ApplyFinishReason(c.text, c.finishReason, tokens), tokens)
  }

  // ---------------------------------------------------------------------------------------------
  // The chat flow

  /** What the model call did: raised an exception, or answered with an optional first candidate. */
  datatype SdkOutcome = Raised(message: string) | Responded(candidate: Option<Candidate>)

  /** The total length of the parts. */
  function SumLengths(parts: seq<string>): nat {
    if |parts| == 0 then 0 else |parts[0]| + SumLengths(parts[1..])
  }

  /** `" ".join(parts)`: every part, in order, with exactly one space between neighbours. */
  function JoinWithSpaces(parts: seq<string>): (s: string)
    ensures |parts| == 0 ==> s == ""
    ensures |parts| > 0 ==> parts[0] <= s
    ensures |parts| > 0 ==> |s| == SumLengths(parts) + |parts| - 1
    ensures |parts| > 0 ==> |parts[|parts| - 1]| <= |s| && s[|s| - |parts[|parts| - 1]|..] == parts[|parts| - 1]
  {
    if |parts| == 0 then ""
    else if |parts| == 1 then parts[0]
    else
      var rest := JoinWithSpaces(parts[1..]);
      assert parts[1..][|parts| - 2] == parts[|parts| - 1];
      assert (parts[0] + " " + rest)[|parts[0]| + 1..] == rest;
      parts[0] + " " + rest
  }

  /** Joining one more part appends a space and that part. */
  lemma {:induction false} JoinAppend(parts: seq<string>, p: string)
    requires |parts| > 0
    ensures JoinWithSpaces(parts + [p]) == JoinWithSpaces(parts) + " " + p
    decreases |parts|
  {
    var q := parts + [p];
    assert q[0] == parts[0];
    assert q[1..] == parts[1..] + [p];
    if |parts| == 1 {
      assert q[1..] == [p];
    } else {
      JoinAppend(parts[1..], p);
      assert JoinWithSpaces(q) == parts[0] + " " + (JoinWithSpaces(parts[1..]) + " " + p);
    }
  }

  /** The contents of all messages, for counting the input tokens. */
  function Contents(messages: seq<RawMessage>): (cs: seq<string>)
    ensures |cs| == |messages|
    ensures forall i :: 0 <= i < |messages| ==> cs[i] == messages[i].content.GetOr("")
  {
    seq(|messages|, i requires 0 <= i < |messages| => messages[i].content.GetOr(""))
  }

  /** The user message recorded for an exchange: the last message's content, or `""` when there is none. */
  function LastContent(messages: seq<RawMessage>): (s: string)
    ensures |messages| == 0 ==> s == ""
    ensures |messages| > 0 ==> s == Contents(messages)[|messages| - 1]
    ensures |messages| > 0 && messages[|messages| - 1].content.None? ==> s == ""
  {
    if |messages| == 0 then "" else messages[|messages| - 1].content.GetOr("")
  }

  const ProviderName: string := "gemini"
  const ServiceErrorPrefix: string := "죄송합니다. AI 서비스 오류가 발생했습니다. ("

  /** Everything one call of `chat` produces: the request it sent, its answer, and the tracker after it. */
  datatype ChatResult = ChatResult(
    contents: seq<GeminiContent>,
    config: GenerationConfig,
    response: ChatResponse,
    tracker: UsageTracker.Tracker)

  /**
   * The answer to a model reply and the tracker after recording it: the processed reply, the
   * given input count, and the estimated cost.
   */
  function Respond(tracker: UsageTracker.Tracker, userMessage: string, modelName: string, tokensInput: int,
                   candidate: Option<Candidate>, now: Timestamp): (a: (ChatResponse, UsageTracker.Tracker))
    ensures a.0.content == ProcessReply(candidate).text && a.0.tokensOutput == ProcessReply(candidate).tokensOutput
    ensures a.0.tokensInput == tokensInput && a.0.model == modelName && a.0.provider == ProviderName
    ensures a.0.cost == UsageTracker.EstimateCost(tokensInput, a.0.tokensOutput)
    ensures a.1 == UsageTracker.RecordChat(tracker, userMessage, a.0.content, tokensInput, a.0.tokensOutput,
                                           a.0.cost, now).tracker
  {
    var reply := ProcessReply(candidate);
    var cost := UsageTracker.EstimateCost(tokensInput, reply.tokensOutput);
    var recorded := UsageTracker.RecordChat(tracker, userMessage, reply.text, tokensInput, reply.tokensOutput, cost, now);
    (ChatResponse(reply.text, modelName, ProviderName, tokensInput, reply.tokensOutput, cost), recorded.tracker)
  }

  /** Answering a reply gives a non-empty answer and counts exactly one request with its cost. */
  lemma RespondCounts(tracker: UsageTracker.Tracker, userMessage: string, modelName: string, tokensInput: int,
                      candidate: Option<Candidate>, now: Timestamp)
    ensures var a := Respond(tracker, userMessage, modelName, tokensInput, candidate, now);
      && |a.0.content| > 0
      && a.1.stats.totalRequests == tracker.stats.totalRequests + 1
      && a.1.stats.totalCost == tracker.stats.totalCost + a.0.cost
  {
  }

  /** Answering a reply leaves the transcript ending with the exchange as answered. */
  lemma RespondAppends(tracker: UsageTracker.Tracker, userMessage: string, modelName: string, tokensInput: int,
                       candidate: Option<Candidate>, now: Timestamp)
    ensures var a := Respond(tracker, userMessage, modelName, tokensInput, candidate, now);
      && |a.1.history| > 0
      && a.1.history[|a.1.history| - 1]
         == ChatHistoryItem(now, userMessage, a.0.content, a.0.tokensInput + a.0.tokensOutput, a.0.cost)
  {
  }

  /**
   * `chat`: build the request, count the input, post-process the reply, price it and record the
   * exchange. When the model call raises, the caller gets an apology with a zero usage triple and
   * nothing is recorded.
   */
  method Chat(tracker: UsageTracker.Tracker, messages: seq<RawMessage>, temperature: real,
              maxTokens: Option<int>, modelName: string, sdkInputCount: Option<int>,
              outcome: SdkOutcome, now: Timestamp) returns (result: ChatResult)
    ensures |result.contents| == |messages|
    ensures forall i :: 0 <= i < |messages| ==> result.contents[i] == ConvertMessage(messages[i])
    ensures result.config.maxOutputTokens <= MaxTokensCeiling
    ensures result.config == GenerationConfig(temperature, MaxOutputTokens(maxTokens))
    ensures result.response.model == modelName && result.response.provider == ProviderName
    ensures outcome.Raised? ==>
              && result.response.content == ServiceErrorPrefix + outcome.message + ")"
              && result.response.tokensInput == 0 && result.response.tokensOutput == 0
              && result.response.cost == 0
              && result.tracker == tracker
    ensures outcome.Responded? ==>
              && |result.response.content| > 0
              && result.response.content == ProcessReply(outcome.candidate).text
              && result.response.tokensOutput == ProcessReply(outcome.candidate).tokensOutput
              && result.response.tokensInput == CountTokens(JoinWithSpaces(Contents(messages)), sdkInputCount)
              && result.response.cost == UsageTracker.EstimateCost(result.response.tokensInput, result.response.tokensOutput)
              && result.tracker.stats.totalRequests == tracker.stats.totalRequests + 1
              && result.tracker.stats.totalCost == tracker.stats.totalCost + result.response.cost
              && |result.tracker.history| > 0
              && result.tracker.history[|result.tracker.history| - 1]
                 == ChatHistoryItem(now, LastContent(messages), result.response.content,
                                    result.response.tokensInput + result.response.tokensOutput,
                                    result.response.cost)
    ensures outcome.Responded? ==>
              result.tracker == UsageTracker.RecordChat(tracker, LastContent(messages), result.response.content,
                                                        result.response.tokensInput, result.response.tokensOutput,
                                                        result.response.cost, now).tracker
  {
    var contents := ToGeminiContents(messages);
    var config := GenerationConfig(temperature, MaxOutputTokens(maxTokens));
    var tokensInput := CountTokens(JoinWithSpaces(Contents(messages)), sdkInputCount);
    match outcome {
      case Raised(e) =>
        var response := ChatResponse(ServiceErrorPrefix + e + ")", modelName, ProviderName, 0, 0, 0);
        result := ChatResult(contents, config, response, tracker);
      case Responded(candidate) =>
        var answer := Respond(tracker, LastContent(messages), modelName, tokensInput, candidate, now);
        RespondCounts(tracker, LastContent(messages), modelName, tokensInput, candidate, now);
        RespondAppends(tracker, LastContent(messages), modelName, tokensInput, candidate, now);
        result := ChatResult(contents, config, answer.0, answer.1);
    }
  }
}
