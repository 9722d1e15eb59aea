/** The record shapes of `llm_dev1/schemas.py` and the scalar encodings the model uses for them. */
module Schemas {
  import opened Wrappers

  /** A point in time: microseconds of the process-local wall clock (Python's naive `datetime`). */
  type Timestamp = int

  /** An amount of money in micro-dollars (1 USD = 1_000_000); the source uses Python floats. */
  type Micros = int

  const MicrosPerDollar: int := 1_000_000
  const MicrosPerSecond: int := 1_000_000
  const SecondsPerDay: int := 86_400
  const MicrosPerDay: int := 86_400_000_000

  /** The calendar day of a timestamp (`datetime.date()`), as a day number. */
  function DayOf(ts: Timestamp): (d: int)
    ensures d * MicrosPerDay <= ts < (d + 1) * MicrosPerDay
  {
    ts / MicrosPerDay
  }

  /**
   * The `seconds` attribute of the `timedelta` `later - earlier`: Python normalises a timedelta to
   * days, seconds in [0, 86400) and microseconds, so this is the whole-second part of the difference
   * modulo one day. Elapsed days are not reflected in it.
   */
  function SecondsComponent(later: Timestamp, earlier: Timestamp): (s: int)
    ensures 0 <= s < SecondsPerDay
    ensures 0 <= later - earlier < MicrosPerDay ==> s * MicrosPerSecond <= later - earlier < (s + 1) * MicrosPerSecond
  {
    ((later - earlier) / MicrosPerSecond) % SecondsPerDay
  }

  /** The three roles the message validator admits. */
  datatype Role = System | User | Assistant

  /** The wire name of a role. */
  function RoleName(r: Role): string {
    match r
    case System => "system"
    case User => "user"
    case Assistant => "assistant"
  }

  /**
   * The `ChatMessage.role` validator: the whole string must match `^(system|user|assistant)$`
   * (pydantic v2 patterns use an engine where `$` is the end of the text, so the match is exact).
   */
  function ParseRole(s: string): (r: Option<Role>)
    ensures r.Some? <==> (s == "system" || s == "user" || s == "assistant")
    ensures r.Some? ==> RoleName(r.value) == s
  {
    if s == "system" then Some(System)
    else if s == "user" then Some(User)
    else if s == "assistant" then Some(Assistant)
    else None
  }

  /** Role names and the validator are mutually inverse. */
  lemma RoleRoundTrip(r: Role)
    ensures ParseRole(RoleName(r)) == Some(r)
  {
  }

  /** A validated chat message. */
  datatype ChatMessage = ChatMessage(role: Role, content: string)

  /** Why a message was refused by the schema. */
  datatype ValidationError = BadRole(given: string)

  /** Building a `ChatMessage` from the raw request fields, as pydantic does. */
  function ValidateMessage(role: string, content: string): (r: Result<ChatMessage, ValidationError>)
    ensures r.Ok? <==> role in {"system", "user", "assistant"}
    ensures r.Ok? ==> RoleName(r.value.role) == role && r.value.content == content
    ensures r.Err? ==> r.error == BadRole(role)
  {
    match ParseRole(role)
    case Some(k) => Ok(ChatMessage(k, content))
    case None => Err(BadRole(role))
  }

  /** The body of `/chat`: messages, sampling temperature (default 0.7) and an optional output cap. */
  datatype ChatRequest = ChatRequest(messages: seq<ChatMessage>, temperature: real := 0.7, maxTokens: Option<int> := None)

  /** The answer of `/chat`, carrying the usage triple of the exchange. */
  datatype ChatResponse = ChatResponse(
    content: string,
    model: string,
    provider: string,
    tokensInput: int,
    tokensOutput: int,
    cost: Micros)

  /** Lifetime and per-day usage aggregates; `lastRequestTime` is absent until the first exchange. */
  datatype UsageStats = UsageStats(
    totalRequests: int,
    totalTokensInput: int,
    totalTokensOutput: int,
    totalCost: Micros,
    requestsToday: int,
    tokensToday: int,
    costToday: Micros,
    lastRequestTime: Option<Timestamp> := None)

  /** One recorded exchange in the bounded transcript. */
  datatype ChatHistoryItem = ChatHistoryItem(
    timestamp: Timestamp,
    userMessage: string,
    assistantMessage: string,
    tokensUsed: int,
    cost: Micros)
}
