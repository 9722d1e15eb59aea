# llm_dev1 usage tracker and chat gateway, in Dafny

This project models the core of `llm_dev1`, a small FastAPI gateway in front of Google's Gemini model. The core has two parts.

**The usage tracker** keeps:
- lifetime and per-day usage aggregates (requests, input and output tokens, and cost);
- a transcript of the last 100 exchanges.

The tracker's operations are:
- a lazy daily reset;
- an anomaly detector with fixed thresholds and a one-minute burst window;
- a cost estimator;
- the stats and history reads;
- the administrative reset.

**The pieces around the tracker** are:
- the role filter of `/chat` and the conversion of messages to Gemini's `contents` list;
- the output-token clamp;
- the finish-reason descriptions and the post-processing of the model's reply;
- the profanity guardrail (detection and asterisk masking);
- the fixed prompt template of `/rag-test`, and the gate that refuses profane input before it is built.

Everything is modelled as immutable datatypes and pure functions, plus three methods (`ToGeminiContents`, `Chat` and `ChatHandler`). Inputs from outside become parameters:
- the clock: `now` for a recording, `today` for a stats read;
- the bad-word list;
- the SDK's answers: its token counts, its reply, or the exception it raised.

Modules:

- `Wrappers`: `Option` and `Result`.
- `Schemas`: the record shapes and the role validator. It also fixes the scalar encodings:
  - a timestamp is microseconds of the local wall clock;
  - money is integer micro-dollars;
  - a calendar day is the floor of the timestamp divided by one day;
  - `timedelta.seconds` is the whole-second part of the difference, modulo one day.
- `UsageTracker`: the tracker's state and operations, and the stats invariant (each day counter is non-negative and at most its lifetime total).
- `TrackerReplay`: what any run of `record_chat` calls leaves behind.
- `Guardrail`: `contains_profanity` and `clean_text`, built on a model of Python's `str.replace`.
- `RagEngine`: `build_prompt`.
- `LlmProvider`: the adapter's pure pieces and the `chat` flow that feeds the tracker.
- `Api`: the handlers of `main.py` that do more than forward a call.

Faithfully reproduced quirks:

- The burst window reads `timedelta.seconds`. Elapsed whole days are ignored, so an item one day and five seconds old counts as recent (`BurstWindowIgnoresDays`).
- `get_history` is Python's `history[-limit:]`:
  - `limit == 0` returns the whole transcript;
  - a negative limit drops the first `|limit|` items.
- The anomaly check sees the transcript before the new item is appended.
- `max_tokens or 512` replaces both an absent value and `0` by 512.
- The cost is rounded to a whole micro-dollar half to even, as Python's `round` does. The model rounds the exact rational price; see "Left out" for float ties.
- `str.replace` with an empty pattern inserts the replacement around every character. For detection, `"" in text` is always true, so an empty word in a list passed in flags every text; masking with an empty word replaces it by `"" * 0` and changes nothing. The CSV loader never produces an empty word.
- The `/chat` handler reads `req.messages[-1]` before anything else, so an empty message list fails before the model is called.

## Model

| member | source | states |
|---|---|---|
| Schemas.DayOf | llm_dev1/usage_tracker.py:79 | the day number of a timestamp brackets it: the day starts at or before it and the next day starts after it |
| Schemas.SecondsComponent | llm_dev1/usage_tracker.py:141-142 | `timedelta.seconds` is in [0, 86400); for a difference under one day it is the number of whole seconds elapsed |
| Schemas.ParseRole | llm_dev1/schemas.py:6 | a role is accepted exactly when it is `system`, `user` or `assistant`, and the accepted role has that name |
| Schemas.RoleRoundTrip | llm_dev1/schemas.py:6 | every role's name is accepted by the validator and parses back to the same role |
| Schemas.ValidateMessage | llm_dev1/schemas.py:5-7 | a message validates iff its role is one of the three names; the result keeps role and content; otherwise the error names the bad role |
| UsageTracker.LoadStats | llm_dev1/usage_tracker.py:20-43 | a parsed stats document is used as is; a missing or unreadable one yields all-zero counters and no last request time |
| UsageTracker.LoadHistory | llm_dev1/usage_tracker.py:45-54 | a parsed transcript is used as is; a missing or unreadable one yields an empty transcript |
| UsageTracker.RoundHalfEven | llm_dev1/usage_tracker.py:166 | the result is within half a unit of `n / d`, and on an exact tie it is even (Python's `round`) |
| UsageTracker.RoundHalfEvenMonotone | llm_dev1/usage_tracker.py:166 | rounding never decreases when the numerator grows |
| UsageTracker.EstimateCost | llm_dev1/usage_tracker.py:157-166 | the cost is the exact price (0.000075 USD per 1000 input tokens, 0.0003 USD per 1000 output tokens) rounded to a whole micro-dollar, ties to even |
| UsageTracker.EstimateCostNonNegative | llm_dev1/usage_tracker.py:163-166 | no tokens cost nothing, and non-negative token counts never cost a negative amount |
| UsageTracker.EstimateCostMonotone | llm_dev1/usage_tracker.py:163-166 | the cost never decreases when either token count grows |
| UsageTracker.RecentItems | llm_dev1/usage_tracker.py:141-142 | the burst list holds exactly the transcript items whose elapsed `seconds` is under 60, each as many times as the transcript holds it, and no more items than the transcript |
| UsageTracker.RecentItemsAppend | llm_dev1/usage_tracker.py:141-142 | filtering a concatenation filters each part, so the burst list keeps the transcript's order |
| UsageTracker.RecentItemsCount | llm_dev1/usage_tracker.py:141-143 | the burst count is the number of transcript positions inside the window |
| UsageTracker.AllRecentCounted | llm_dev1/usage_tracker.py:141-143 | when every item is inside the window, all of them are counted |
| UsageTracker.IsAbnormal | llm_dev1/usage_tracker.py:126-146 | an exchange is flagged iff it has more than 10000 input tokens, more than 20000 output tokens, costs more than 1.00 USD, or more than ten transcript positions are inside the burst window |
| UsageTracker.BurstIsAbnormal | llm_dev1/usage_tracker.py:140-144 | more than ten items inside the window flag the exchange, whatever its own usage |
| UsageTracker.QuietIsNormal | llm_dev1/usage_tracker.py:126-146 | thresholds are exclusive: usage at or below 10000 / 20000 tokens and 1.00 USD, with at most ten items, is not flagged |
| UsageTracker.BurstWindowIgnoresDays | llm_dev1/usage_tracker.py:142 | an item one day and five seconds old still counts toward the burst |
| UsageTracker.ResetDaily | llm_dev1/usage_tracker.py:76-82 | with no last request or one on an earlier day, the three day counters become zero; otherwise nothing changes; totals and last request time are never touched |
| UsageTracker.GetStats | llm_dev1/usage_tracker.py:148-151 | reading the stats changes no lifetime total or last request time; after a day change the three day counters read 0, otherwise the stats read back unchanged |
| UsageTracker.GetStatsIdempotent | llm_dev1/usage_tracker.py:148-151 | reading the stats twice on the same day gives the same answer |
| UsageTracker.ResetDailyAbsorbs | llm_dev1/usage_tracker.py:76-82 | a reset on an earlier day followed by one on a later day equals the later reset alone, so the reset a stats read keeps in memory never changes a later recording |
| UsageTracker.Preview | llm_dev1/usage_tracker.py:95 | the diagnostic preview is a prefix of the message, at most 100 characters, and the whole message when it is that short |
| UsageTracker.Cap | llm_dev1/usage_tracker.py:118-120 | the capped transcript has min(length, 100) items and is a suffix of the uncapped one |
| UsageTracker.AppendCapped | llm_dev1/usage_tracker.py:116-120 | appending an item grows the transcript by one up to 100 items; the result is a suffix of the old transcript plus the item (older items dropped, none modified) and ends with the item |
| UsageTracker.AlertFor | llm_dev1/usage_tracker.py:89-95 | the diagnostic is present iff the exchange is abnormal against the given transcript, and then carries exactly the exchange's input tokens, output tokens, cost and the first 100 characters of the user message |
| UsageTracker.Count | llm_dev1/usage_tracker.py:97-106 | totals grow by one request and by the usage triple; after a day change the day counters restart at 1, ti+to and cost, otherwise they grow by the same amounts; the last request time becomes `now` |
| UsageTracker.RecordChat | llm_dev1/usage_tracker.py:84-124 | the stats are the counter update after the lazy reset for the day of `now` (spelled out as in `Count`). The transcript is the capped append of an item stamped `now`, with both messages, ti+to tokens and the cost. A diagnostic is emitted iff the exchange is abnormal against the transcript before the append, and it is exactly the exchange's usage triple with the first 100 characters of the user message |
| UsageTracker.GetHistory | llm_dev1/usage_tracker.py:153-155 | Python `history[-limit:]`: the last min(limit, n) items for a positive limit, everything for 0, and all but the first abs(limit) items for a negative limit |
| UsageTracker.GetHistoryIsSuffix | llm_dev1/usage_tracker.py:155 | whatever the limit, the answer is a suffix of the transcript, oldest first |
| UsageTracker.DefaultStatsValid | llm_dev1/usage_tracker.py:34-43 | the default stats satisfy the stats invariant |
| UsageTracker.ResetDailyPreservesValid | llm_dev1/usage_tracker.py:79-82 | the daily reset keeps the stats invariant |
| UsageTracker.RecordChatPreservesValid | llm_dev1/usage_tracker.py:98-105 | recording a non-negative usage triple keeps every day counter non-negative and at most its lifetime total |
| TrackerReplay.RecordAllTotals | llm_dev1/usage_tracker.py:98-101 | after any run of exchanges the totals have grown by the number of exchanges and by the summed tokens and costs |
| TrackerReplay.RecordAllStampsLast | llm_dev1/usage_tracker.py:106 | after a non-empty run the last request time is that of the last exchange |
| TrackerReplay.CapAbsorbs | llm_dev1/usage_tracker.py:118-120 | capping between appends loses nothing the final cap would keep |
| TrackerReplay.RecordChatAppends | llm_dev1/usage_tracker.py:109-120 | one recording appends exactly the exchange's item to the transcript and caps it |
| TrackerReplay.RecordAllHistory | llm_dev1/usage_tracker.py:116-120 | after a non-empty run the transcript is the last (at most) 100 items of the old transcript followed by one item per exchange, in order |
| TrackerReplay.KeepsLastHundred | llm_dev1/usage_tracker.py:116-120 | after at least 100 exchanges, a history read for 100 or more items returns exactly the items of the last 100 exchanges, oldest first |
| TrackerReplay.RecordAllPreservesValid | llm_dev1/usage_tracker.py:97-105 | any run of non-negative exchanges keeps the stats invariant |
| Guardrail.Occurs | llm_dev1/guardrail.py:11 | `bad in text` holds iff the word sits at some index of the text (so the empty word is in every text) |
| Guardrail.ContainsProfanity | llm_dev1/guardrail.py:10-11 | a text is profane iff some listed word occurs in it |
| Guardrail.ProfanityEdgeCases | llm_dev1/guardrail.py:10-11 | an empty list flags nothing; an empty word in the list flags every text |
| Guardrail.Replace | llm_dev1/guardrail.py:16 | a replacement as long as the pattern keeps the text's length |
| Guardrail.CleanText | llm_dev1/guardrail.py:14-17 | cleaning keeps the text's length |
| Guardrail.Mask | llm_dev1/guardrail.py:16 | replacing a word by as many asterisks keeps the text's length |
| Guardrail.MaskOnlyStars | llm_dev1/guardrail.py:16 | one masking step keeps every character or turns it into `*` |
| Guardrail.MaskChangesOnlyOccurrences | llm_dev1/guardrail.py:16 | a character changed by masking becomes `*` and lies inside an occurrence of the word in the original text |
| Guardrail.MaskAbsentIsIdentity | llm_dev1/guardrail.py:16 | masking a non-empty word that does not occur leaves the text unchanged |
| Guardrail.MaskRemovesWord | llm_dev1/guardrail.py:16 | after masking a non-empty word that contains no `*`, the word no longer occurs |
| Guardrail.CleanTextOnlyStars | llm_dev1/guardrail.py:14-17 | cleaning keeps every character or turns it into `*` |
| Guardrail.CleanTextOfCleanInput | llm_dev1/guardrail.py:14-17 | a text that is not profane (in particular any text with an empty list) comes back unchanged |
| Guardrail.CleanTextInOrder | llm_dev1/guardrail.py:15-16 | the list is applied in order: cleaning with `a + b` is cleaning with `a`, then with `b` |
| RagEngine.TemplateLengthIs45 | llm_dev1/rag_engine.py:2-15 | the template adds exactly 45 characters around its arguments |
| RagEngine.BuildPrompt | llm_dev1/rag_engine.py:1-15 | the prompt's length is the arguments' lengths plus the template's; it starts with the problem heading and ends with the user input and a blank line |
| RagEngine.SectionsInOrder | llm_dev1/rag_engine.py:2-15 | each argument appears verbatim right after its own heading, in the order problem information, chat log, criteria, user input |
| LlmProvider.ConvertMessage | llm_dev1/llm_provider.py:25-26 | role `model` iff the message's role is `assistant`, `user` otherwise (missing included); exactly one part, the content or `""` |
| LlmProvider.ToGeminiContents | llm_dev1/llm_provider.py:22-27 | the list has one entry per message, in order, each the conversion of that message |
| LlmProvider.MaxOutputTokens | llm_dev1/llm_provider.py:68 | the cap never exceeds 10000; absent or 0 becomes 512; any other value up to 10000 is kept; larger values become 10000 |
| LlmProvider.MaxOutputTokensIdempotent | llm_dev1/llm_provider.py:68 | clamping a clamped value changes nothing |
| LlmProvider.IntToDecimal | llm_dev1/llm_provider.py:56 | `str(n)` is non-empty, starts with a digit for a non-negative number and with `-` for a negative one |
| LlmProvider.ParseNatDigits | llm_dev1/llm_provider.py:56 | the decimal text of a natural number reads back as that number |
| LlmProvider.IntToDecimalInjective | llm_dev1/llm_provider.py:56 | different integers have different decimal texts |
| LlmProvider.DescribeFinishReason | llm_dev1/llm_provider.py:48-56 | codes 0 to 5 have their fixed descriptions; any other code is described as "알 수 없음 (" + its decimal text + ")" |
| LlmProvider.DescribeFinishReasonInjective | llm_dev1/llm_provider.py:48-56 | no two codes share a description |
| LlmProvider.ApplyFinishReason | llm_dev1/llm_provider.py:96-105 | reasons 3 and 4 replace the text by their notice; 5 appends the error notice; 2 appends the truncation notice from 50 output tokens up and keeps the text below; any other reason keeps it |
| LlmProvider.FinishReasonKeepsText | llm_dev1/llm_provider.py:96-105 | unless the reply was blocked (3 or 4), the model's own text stays at the front |
| LlmProvider.Finalize | llm_dev1/llm_provider.py:107-109 | an empty final text becomes the fallback message with 0 output tokens; any other is kept with its count |
| LlmProvider.CountTokens | llm_dev1/llm_provider.py:29-35 | the SDK's count when it answers, else half the text's length rounded down |
| LlmProvider.ProcessReply | llm_dev1/llm_provider.py:85-109 | the reply is never empty; no candidate gives the fallback with 0 tokens. For a candidate, the text is annotated for its finish reason with the counted output tokens; a non-empty annotated text is the reply with that count, an empty one becomes the fallback with 0 tokens; a safety stop gives the safety notice |
| LlmProvider.JoinWithSpaces | llm_dev1/llm_provider.py:75 | joining no parts gives `""`; otherwise the text starts with the first part, ends with the last, and is as long as all parts plus one space between each pair of neighbours |
| LlmProvider.JoinAppend | llm_dev1/llm_provider.py:75 | joining one more part appends a space and that part |
| LlmProvider.LastContent | llm_dev1/llm_provider.py:114 | the recorded user message is the last message's content (`""` when it has none), or `""` for an empty list |
| LlmProvider.Contents | llm_dev1/llm_provider.py:75 | one content per message, a missing content read as `""` |
| LlmProvider.Respond | llm_dev1/llm_provider.py:107-128 | the answer to a reply carries the processed reply text and output tokens, the given input count, the model name, provider `gemini` and the estimated cost; the tracker is the one `record_chat` produces for that usage |
| LlmProvider.RespondCounts | llm_dev1/llm_provider.py:111-120 | answering a reply gives a non-empty answer and counts exactly one more request and its cost |
| LlmProvider.RespondAppends | llm_dev1/llm_provider.py:113-120 | answering a reply leaves the transcript ending with the exchange as answered: the user message, the reply, the summed tokens and the cost |
| LlmProvider.Chat | llm_dev1/llm_provider.py:58-141 | the request holds the converted messages and the clamped cap. When the model call raises, the answer is the apology with a zero usage triple and nothing is recorded. Otherwise: the reply is non-empty; the input count is over the space-joined contents; the cost is the estimate of the usage; the reply, its output tokens and hence its text are those of the processed candidate; one request and that cost are added; the tracker is exactly the one `record_chat` produces for the last message's content and this usage, so the transcript ends with this exchange |
| Api.FilterRoles | llm_dev1/main.py:82-85 | the kept messages are exactly the user and assistant messages of the request, no more of them than there were |
| Api.FilterRolesAppend | llm_dev1/main.py:82-85 | filtering a concatenation filters each part, so the kept messages keep their original order |
| Api.FilterRolesKeepsConversation | llm_dev1/main.py:82-85 | a request without system messages passes the filter unchanged |
| Api.FilterRolesIdempotent | llm_dev1/main.py:82-85 | filtering twice is filtering once |
| Api.AsRaw | llm_dev1/main.py:92 | the dictionary handed to the adapter carries the message's role name and content |
| Api.ConversionRoundTrip | llm_dev1/main.py:92 | a user or assistant message can be read back from its Gemini entry; a system message would read back as a user message |
| Api.ChatHandler | llm_dev1/main.py:76-96 | an empty message list fails; otherwise the Gemini request holds exactly the filtered messages, in order and recoverable, with the form's temperature and the clamped output cap, and the answer names the model and provider `gemini`. A failed model call yields the apology with a zero usage triple and leaves the tracker alone. A reply is the processed candidate; its input count is over the space-joined contents of the forwarded messages; it is priced by the estimator; and the tracker is the one `record_chat` produces for the last forwarded message |
| Api.LastContentOfRaw | llm_dev1/llm_provider.py:114 | the user message recorded for the forwarded list is the content of its last message, or `""` when nothing was forwarded |
| Api.ResetUsageStats | llm_dev1/main.py:108-121 | every counter becomes zero and the last request time absent; the transcript is untouched |
| Api.ResetThenGetStats | llm_dev1/main.py:112-119 | after a reset the stats read back as the default stats on any day, and satisfy the invariant |
| Api.RecordAfterReset | llm_dev1/main.py:112-119 | the first exchange after a reset sets lifetime and day counters to exactly that exchange's usage |
| Api.RagTestAsWritten | llm_dev1/main.py:132-133 | as written, a profane input raises (HTTP 500) and only a clean input reaches the prompt |
| Api.RagTestAsWrittenFailsOnProfanity | llm_dev1/main.py:132-133 | for the input "you idiot" with bad word "idiot" the handler answers 500 instead of a refusal |
| Api.RagTest | llm_dev1/main.py:123-149 | the input is refused with 400 and the fixed error iff it is profane; otherwise the model receives exactly the built prompt as one user message, with the form's temperature and cap |
| Api.PromptedInputIsClean | llm_dev1/main.py:132-135 | whatever passes the gate is left unchanged by `clean_text` |

## Left out

- Persistence is not modelled: reading and writing the JSON files, `mkdir`, and ISO-8601 conversion. Loading is modelled only as "a parsed document, or the defaults when it is missing or unreadable". The writes are not atomic, and the model claims no atomicity.
- The Gemini SDK is a set of parameters: configuration, model construction, `generate_content`, `count_tokens` and reading environment variables. The provider check on the `PROVIDER` variable is not modelled; the model always takes the `gemini` branch.
- `_extract_text` (joining a candidate's parts) and `.strip()` are left out. A candidate arrives with its text already extracted and stripped.
- The `chat` flow does not model the `except` path catching an exception raised by `record_chat` itself (a disk failure after the counters were updated). Only an exception from the model call is modelled.
- `_describe_finish_reason(None)` is reached only inside a diagnostic `print` and is left out. The model takes integer codes.
- FastAPI plumbing is left out: routing, CORS, static files, the favicon, `/health`, `/debug/env`, response models, and the duplicated `/api/history` routes (these only forward to `get_history` and `get_stats`).
- The bad-word list is loaded from a CSV file with pandas. That loading is not modelled; the list is a parameter.
- Floating point is not modelled. Money is integer micro-dollars. The estimator rounds the exact rational price, so float representation error at a rounding tie is not reproduced. Temperatures are `real`.
- Clock reads and the local time zone are parameters. `record_chat` reads the clock several times in the source; the model uses one instant `now` for the whole call.
- Concurrency: the source has no locking around the global tracker, so there is nothing to state about interleavings.
- The `print` diagnostics are left out, except for the anomaly diagnostic: it is modelled as an optional `Alert` in `RecordChat`'s result.
- `llm_dev1/__init__.py` holds no code.
- The `/rag-test` handler is modelled up to the call into `chat`. The rest of that call is `LlmProvider.Chat`.

## Findings

| source | as written | input that shows it | evidently intended | confidence | as-written member | corrected member |
|---|---|---|---|---|---|---|
| llm_dev1/main.py:133 | the refusal builds a `JSONResponse`, a name `main.py` never imports, so a profane input raises `NameError` and the client gets HTTP 500 | `user_input = "you idiot"` with bad word `"idiot"` | a 400 answer carrying the error "입력에 금지어가 포함되어 있습니다." | high, not executed | Api.RagTestAsWrittenFailsOnProfanity | Api.RagTest |
