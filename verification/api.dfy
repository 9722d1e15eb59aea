/**
 * The request handlers of `llm_dev1/main.py` that do more than forward a call: the role filter of
 * `/chat`, the stats reset of `/usage/reset` and the profanity gate of `/rag-test`.
 */
module Api {
  import opened Wrappers
  import opened Schemas
  import opened UsageTracker
  import LlmProvider
  import Guardrail
  import RagEngine

  // ---------------------------------------------------------------------------------------------
  // /chat

  /** The messages `/chat` forwards: a system message is dropped. */
  predicate Forwarded(m: ChatMessage) {
    m.role == User || m.role == Assistant
  }

  /** The list comprehension that keeps only `user` and `assistant` messages. */
  function FilterRoles(messages: seq<ChatMessage>): (r: seq<ChatMessage>)
    ensures |r| <= |messages|
    ensures forall m :: m in r <==> m in messages && Forwarded(m)
  {
    if |messages| == 0 then []
    else (if Forwarded(messages[0]) then [messages[0]] else []) + FilterRoles(messages[1..])
  }

  /** Filtering a concatenation filters each part: the kept messages stay in their original order. */
  lemma {:induction false} FilterRolesAppend(a: seq<ChatMessage>, b: seq<ChatMessage>)
    ensures FilterRoles(a + b) == FilterRoles(a) + FilterRoles(b)
    decreases |a|
  {
    if |a| == 0 {
      assert a + b == b;
    } else {
      assert (a + b)[0] == a[0];
      assert (a + b)[1..] == a[1..] + b;
      FilterRolesAppend(a[1..], b);
    }
  }

  /** A list without system messages passes the filter unchanged. */
  lemma {:induction false} FilterRolesKeepsConversation(messages: seq<ChatMessage>)
    requires forall i :: 0 <= i < |messages| ==> messages[i].role != System
    ensures FilterRoles(messages) == messages
    decreases |messages|
  {
    if |messages| > 0 {
      FilterRolesKeepsConversation(messages[1..]);
    }
  }

  /** Filtering twice is filtering once. */
  lemma FilterRolesIdempotent(messages: seq<ChatMessage>)
    ensures FilterRoles(FilterRoles(messages)) == FilterRoles(messages)
  {
    var r := FilterRoles(messages);
    assert forall i :: 0 <= i < |r| ==> r[i] in r;
    FilterRolesKeepsConversation(r);
  }

  /** The dictionary `{"role": m.role, "content": m.content}` built for the adapter. */
  function AsRaw(m: ChatMessage): (r: LlmProvider.RawMessage)
    ensures r.role == Some(RoleName(m.role)) && r.content == Some(m.content)
  {
    LlmProvider.RawMessage(Some(RoleName(m.role)), Some(m.content))
  }

  function AsRawAll(messages: seq<ChatMessage>): (r: seq<LlmProvider.RawMessage>)
    ensures |r| == |messages|
    ensures forall i :: 0 <= i < |messages| ==> r[i] == AsRaw(messages[i])
  {
    seq(|messages|, i requires 0 <= i < |messages| => AsRaw(messages[i]))
  }

  /** The user message the adapter records for a forwarded list is the content of its last message. */
  lemma LastContentOfRaw(messages: seq<ChatMessage>)
    ensures LlmProvider.LastContent(AsRawAll(messages))
            == if |messages| == 0 then "" else messages[|messages| - 1].content
  {
    if |messages| > 0 {
      assert AsRawAll(messages)[|messages| - 1] == AsRaw(messages[|messages| - 1]);
    }
  }

  /** Reading a Gemini content entry back as a chat message. */
  function FromGemini(c: LlmProvider.GeminiContent): ChatMessage {
    ChatMessage(if c.role == "model" then Assistant else User, if |c.parts| > 0 then c.parts[0] else "")
  }

  /**
   * The conversion loses nothing for the messages `/chat` forwards: a user or assistant message
   * can be read back from its Gemini entry. A system message would come back as a user message.
   */
  lemma ConversionRoundTrip(m: ChatMessage)
    ensures Forwarded(m) ==> FromGemini(LlmProvider.ConvertMessage(AsRaw(m))) == m
    ensures m.role == System ==> FromGemini(LlmProvider.ConvertMessage(AsRaw(m))) == ChatMessage(User, m.content)
  {
  }

  /** How a `/chat` request ends when the handler itself fails. */
  datatype HandlerError = NoMessages

  /**
   * `chat` of main.py: the handler reads `req.messages[-1]` first, so an empty message list raises
   * before anything else happens; otherwise the filtered messages go to the adapter.
   */
  method ChatHandler(tracker: Tracker, req: ChatRequest, modelName: string, sdkInputCount: Option<int>,
                     outcome: LlmProvider.SdkOutcome, now: Timestamp)
    returns (r: Result<LlmProvider.ChatResult, HandlerError>)
    ensures |req.messages| == 0 <==> r.Err?
    ensures r.Ok? ==> |r.value.contents| == |FilterRoles(req.messages)|
    ensures r.Ok? ==> forall i :: 0 <= i < |r.value.contents| ==>
              FromGemini(r.value.contents[i]) == FilterRoles(req.messages)[i]
    ensures r.Ok? ==> r.value.config.maxOutputTokens <= LlmProvider.MaxTokensCeiling
    ensures r.Ok? ==> r.value.config == LlmProvider.GenerationConfig(req.temperature, LlmProvider.MaxOutputTokens(req.maxTokens))
    ensures r.Ok? ==> r.value.response.model == modelName && r.value.response.provider == LlmProvider.ProviderName
    ensures r.Ok? && outcome.Raised? ==>
              && r.value.response.content == LlmProvider.ServiceErrorPrefix + outcome.message + ")"
              && r.value.response.tokensInput == 0 && r.value.response.tokensOutput == 0
              && r.value.response.cost == 0
              && r.value.tracker == tracker
    ensures r.Ok? && outcome.Responded? ==>
              var kept := FilterRoles(req.messages);
              var reply := LlmProvider.ProcessReply(outcome.candidate);
              var response := r.value.response;
              && response.content == reply.text && response.tokensOutput == reply.tokensOutput
              && response.tokensInput
                 == LlmProvider.CountTokens(LlmProvider.JoinWithSpaces(LlmProvider.Contents(AsRawAll(kept))), sdkInputCount)
              && response.cost == EstimateCost(response.tokensInput, response.tokensOutput)
              && r.value.tracker
                 == RecordChat(tracker, LlmProvider.LastContent(AsRawAll(kept)), response.content,
                               response.tokensInput, response.tokensOutput, response.cost, now).tracker
  {
    if |req.messages| == 0 {
      return Err(NoMessages);
    }
    var cleaned := FilterRoles(req.messages);
    var raw := AsRawAll(cleaned);
    var result := LlmProvider.Chat(tracker, raw, req.temperature, req.maxTokens, modelName,
                                   sdkInputCount, outcome, now);
    forall i | 0 <= i < |result.contents|
      ensures FromGemini(result.contents[i]) == cleaned[i]
    {
      assert cleaned[i] in cleaned;
      ConversionRoundTrip(cleaned[i]);
    }
    return Ok(result);
  }

  // ---------------------------------------------------------------------------------------------
  // /usage/reset

  /** `reset_usage_stats`: every counter to zero and no last request; the transcript is untouched. */
  function ResetUsageStats(t: Tracker): (r: Tracker)
    ensures r.history == t.history
    ensures r.stats.totalRequests == 0 && r.stats.totalTokensInput == 0 && r.stats.totalTokensOutput == 0
    ensures r.stats.totalCost == 0 && r.stats.requestsToday == 0 && r.stats.tokensToday == 0
    ensures r.stats.costToday == 0 && r.stats.lastRequestTime.None?
  {
    var s := t.stats;
    Tracker(s.(totalRequests := 0, totalTokensInput := 0, totalTokensOutput := 0, totalCost := 0,
               requestsToday := 0, tokensToday := 0, costToday := 0, lastRequestTime := None),
            t.history)
  }

  /** After a reset the stats read back as the default stats on any day, and satisfy the invariant. */
  lemma ResetThenGetStats(t: Tracker, today: int)
    ensures GetStats(ResetUsageStats(t).stats, today) == DefaultStats
    ensures ValidStats(ResetUsageStats(t).stats)
  {
  }

  /** The first exchange after a reset starts both the lifetime and the daily counters afresh. */
  lemma RecordAfterReset(t: Tracker, userMessage: string, assistantMessage: string,
                         tokensInput: int, tokensOutput: int, cost: Micros, now: Timestamp)
    ensures var s := RecordChat(ResetUsageStats(t), userMessage, assistantMessage, tokensInput, tokensOutput, cost, now).tracker.stats;
      && s.totalRequests == 1 && s.requestsToday == 1
      && s.totalTokensInput == tokensInput && s.totalTokensOutput == tokensOutput
      && s.tokensToday == tokensInput + tokensOutput
      && s.totalCost == cost && s.costToday == cost
  {
  }

  // ---------------------------------------------------------------------------------------------
  // /rag-test

  const BadRequest: int := 400
  const InternalServerError: int := 500
  const ProfanityError: string := "입력에 금지어가 포함되어 있습니다."

  /** The default `max_tokens` form value of `/rag-test`. */
  const RagDefaultMaxTokens: int := 1000

  /** How `/rag-test` answers before the model is called. */
  datatype RagOutcome =
    | Refused(status: int, error: string)
    | Crashed(status: int, exception: string)
    | Prompted(prompt: string, messages: seq<LlmProvider.RawMessage>, temperature: real, maxTokens: Option<int>)

  /**
   * `rag_prompt_test` as written: the refusal branch builds a `JSONResponse`, a name main.py never
   * imports, so a profane input raises `NameError` and the framework answers 500.
   */
  function RagTestAsWritten(metadata: string, chatLog: string, ragCriteria: string, userInput: string,
                            temperature: real, maxTokens: int, badwords: seq<string>): (r: RagOutcome)
    ensures r.Crashed? <==> Guardrail.ContainsProfanity(userInput, badwords)
    ensures r.Crashed? ==> r.status == InternalServerError
    ensures !r.Crashed? ==> r.Prompted?
  {
    if Guardrail.ContainsProfanity(userInput, badwords) then
      Crashed(InternalServerError, "NameError: name 'JSONResponse' is not defined")
    else
      var prompt := RagEngine.BuildPrompt(metadata, chatLog, ragCriteria, userInput);
      Prompted(prompt, [LlmProvider.RawMessage(Some("user"), Some(prompt))], temperature, Some(maxTokens))
  }

  /** A concrete profane input: the intended 400 refusal comes out as a 500. */
  lemma RagTestAsWrittenFailsOnProfanity()
    ensures RagTestAsWritten("m", "c", "k", "you idiot", 0.7, RagDefaultMaxTokens, ["idiot"]).status == InternalServerError
  {
    assert Guardrail.OccursAt("idiot", "you idiot", 4);
  }

  /**
   * `rag_prompt_test` as intended: a profane input is refused with 400 and the model is never
   * called; otherwise the built prompt is sent as a single user message.
   */
  function RagTest(metadata: string, chatLog: string, ragCriteria: string, userInput: string,
                   temperature: real, maxTokens: int, badwords: seq<string>): (r: RagOutcome)
    ensures r.Refused? <==> Guardrail.ContainsProfanity(userInput, badwords)
    ensures r.Refused? ==> r.status == BadRequest && r.error == ProfanityError
    ensures !r.Refused? ==> r.Prompted?
    ensures r.Prompted? ==> r.prompt == RagEngine.BuildPrompt(metadata, chatLog, ragCriteria, userInput)
    ensures r.Prompted? ==> r.messages == [LlmProvider.RawMessage(Some("user"), Some(r.prompt))]
    ensures r.Prompted? ==> r.maxTokens == Some(maxTokens) && r.temperature == temperature
  {
    if Guardrail.ContainsProfanity(userInput, badwords) then
      Refused(BadRequest, ProfanityError)
    else
      var prompt := RagEngine.BuildPrompt(metadata, chatLog, ragCriteria, userInput);
      Prompted(prompt, [LlmProvider.RawMessage(Some("user"), Some(prompt))], temperature, Some(maxTokens))
  }

  /** Whatever passes the gate would also pass `clean_text` unchanged. */
  lemma PromptedInputIsClean(metadata: string, chatLog: string, ragCriteria: string, userInput: string,
                             temperature: real, maxTokens: int, badwords: seq<string>)
    requires RagTest(metadata, chatLog, ragCriteria, userInput, temperature, maxTokens, badwords).Prompted?
    ensures Guardrail.CleanText(userInput, badwords) == userInput
  {
    Guardrail.CleanTextOfCleanInput(userInput, badwords);
  }
}
