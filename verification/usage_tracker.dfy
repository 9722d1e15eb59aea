/**
 * The usage-tracking state machine of `llm_dev1/usage_tracker.py`: lifetime and daily usage
 * aggregates plus a transcript capped at the most recent 100 exchanges, with the lazy daily
 * reset, the anomaly predicate and the cost estimator.
 *
 * Clock reads become parameters: `now` is the one instant of a `record_chat` call and `today`
 * the day number a `get_stats` call compares against.
 */
module UsageTracker {
  import opened Wrappers
  import opened Schemas

  /** The tracker's in-memory state: the stats record and the transcript, oldest first. */
  datatype Tracker = Tracker(stats: UsageStats, history: seq<ChatHistoryItem>)

  /** The most recent exchanges kept in the transcript. */
  const HistoryCap: nat := 100

  /** Characters of the user message shown in an anomaly diagnostic. */
  const PreviewLength: nat := 100

  // Anomaly thresholds; each is exceeded only strictly above the value.
  const InputTokenLimit: int := 10_000
  const OutputTokenLimit: int := 20_000
  const CostLimit: Micros := 1_000_000
  const BurstWindowSeconds: int := 60
  const BurstLimit: int := 10

  // Prices in micro-dollars per 1000 tokens (0.000075 and 0.0003 dollars).
  const InputPricePer1K: real := 75.0
  const OutputPricePer1K: real := 300.0

  /** The stats a fresh tracker starts from: every counter zero and no last request. */
  const DefaultStats: UsageStats := UsageStats(0, 0, 0, 0, 0, 0, 0, None)

  /** What reading one persisted document produced. */
  datatype Document<T> = Missing | Malformed | Parsed(value: T)

  /** `_load_stats`: a missing or unreadable document degrades to the default stats. */
  function LoadStats(doc: Document<UsageStats>): (s: UsageStats)
    ensures doc.Parsed? ==> s == doc.value
    ensures !doc.Parsed? ==> s.lastRequestTime.None? && s.totalRequests == 0 && s.totalTokensInput == 0
                             && s.totalTokensOutput == 0 && s.totalCost == 0 && s.requestsToday == 0
                             && s.tokensToday == 0 && s.costToday == 0
  {
    if doc.Parsed? then doc.value else DefaultStats
  }

  /** `_load_history`: a missing or unreadable document degrades to an empty transcript. */
  function LoadHistory(doc: Document<seq<ChatHistoryItem>>): (h: seq<ChatHistoryItem>)
    ensures doc.Parsed? ==> h == doc.value
    ensures !doc.Parsed? ==> h == []
  {
    if doc.Parsed? then doc.value else []
  }

  // ---------------------------------------------------------------------------------------------
  // Cost estimator

  /** The exact price of an exchange in micro-dollars, before rounding. */
  function ExactPrice(tokensInput: int, tokensOutput: int): real {
    (tokensInput as real / 1000.0) * InputPricePer1K + (tokensOutput as real / 1000.0) * OutputPricePer1K
  }

  /** The integer nearest to `n / d`, ties going to the even neighbour (Python's `round`). */
  function RoundHalfEven(n: int, d: int): (r: int)
    requires d > 0
    ensures 2 * (n - r * d) <= d && 2 * (r * d - n) <= d
    ensures (2 * (n - r * d) == d || 2 * (r * d - n) == d) ==> r % 2 == 0
  {
    var q := n / d;
    var rem := n % d;
    assert n - q * d == rem && (q + 1) * d - n == d - rem;
    if 2 * rem < d then q
    else if 2 * rem > d then q + 1
    else if q % 2 == 0 then q
    else q + 1
  }

  /** A positive product with a positive factor has a positive co-factor. */
  lemma PositiveFactor(a: int, b: int)
    requires b > 0 && a * b > 0
    ensures a > 0
  {
  }

  /** Floor division by a positive divisor is monotone. */
  lemma DivMonotone(n1: int, n2: int, d: int)
    requires d > 0 && n1 <= n2
    ensures n1 / d <= n2 / d
  {
    var q1, q2 := n1 / d, n2 / d;
    assert n1 == q1 * d + n1 % d && n2 == q2 * d + n2 % d;
    assert (q2 - q1 + 1) * d == (n2 - n1) + (n1 % d - n2 % d) + d;
    PositiveFactor(q2 - q1 + 1, d);
  }

  /** Rounding to nearest is monotone in the numerator. */
  lemma RoundHalfEvenMonotone(n1: int, n2: int, d: int)
    requires d > 0 && n1 <= n2
    ensures RoundHalfEven(n1, d) <= RoundHalfEven(n2, d)
  {
    var q1, q2 := n1 / d, n2 / d;
    assert n1 == q1 * d + n1 % d && n2 == q2 * d + n2 % d;
    DivMonotone(n1, n2, d);
    if q1 < q2 {
      assert RoundHalfEven(n1, d) <= q1 + 1 <= q2 <= RoundHalfEven(n2, d);
    }
  }

  /**
   * `estimate_cost`: the price of an exchange in micro-dollars, the exact price rounded to a whole
   * micro-dollar (six decimal places of a dollar).
   */
  function EstimateCost(tokensInput: int, tokensOutput: int): (cost: Micros)
    ensures -0.5 <= cost as real - ExactPrice(tokensInput, tokensOutput) <= 0.5
    ensures cost as real - ExactPrice(tokensInput, tokensOutput) in {-0.5, 0.5} ==> cost % 2 == 0
  {
    RoundHalfEven(3 * tokensInput + 12 * tokensOutput, 40)
  }

  /** No tokens cost nothing, and a non-negative usage never has a negative price. */
  lemma EstimateCostNonNegative(tokensInput: int, tokensOutput: int)
    requires tokensInput >= 0 && tokensOutput >= 0
    ensures EstimateCost(tokensInput, tokensOutput) >= 0
    ensures tokensInput == 0 && tokensOutput == 0 ==> EstimateCost(tokensInput, tokensOutput) == 0
  {
    RoundHalfEvenMonotone(0, 3 * tokensInput + 12 * tokensOutput, 40);
  }

  /** The price never decreases when either token count grows. */
  lemma EstimateCostMonotone(in1: int, out1: int, in2: int, out2: int)
    requires in1 <= in2 && out1 <= out2
    ensures EstimateCost(in1, out1) <= EstimateCost(in2, out2)
  {
    RoundHalfEvenMonotone(3 * in1 + 12 * out1, 3 * in2 + 12 * out2, 40);
  }

  // ---------------------------------------------------------------------------------------------
  // Anomaly detector

  /** Whether a history item counts toward the burst window, by `timedelta.seconds` (days ignored). */
  predicate IsRecent(item: ChatHistoryItem, now: Timestamp) {
    SecondsComponent(now, item.timestamp) < BurstWindowSeconds
  }

  /** The history items the burst check counts, in their original order. */
  function RecentItems(history: seq<ChatHistoryItem>, now: Timestamp): (r: seq<ChatHistoryItem>)
    ensures |r| <= |history|
    ensures forall x :: x in r <==> x in history && IsRecent(x, now)
    ensures forall x :: multiset(r)[x] == if IsRecent(x, now) then multiset(history)[x] else 0
  {
    if |history| == 0 then []
    else
      assert history == [history[0]] + history[1..];
      (if IsRecent(history[0], now) then [history[0]] else []) + RecentItems(history[1..], now)
  }

  lemma ConcatAssociative(x: seq<ChatHistoryItem>, y: seq<ChatHistoryItem>, z: seq<ChatHistoryItem>)
    ensures x + (y + z) == (x + y) + z
  {
  }

  /** Filtering a concatenation filters each part, so the burst list keeps the transcript's order. */
  lemma {:induction false} RecentItemsAppend(a: seq<ChatHistoryItem>, b: seq<ChatHistoryItem>, now: Timestamp)
    ensures RecentItems(a + b, now) == RecentItems(a, now) + RecentItems(b, now)
    decreases |a|
  {
    if |a| == 0 {
      assert a + b == b;
    } else {
      var head := if IsRecent(a[0], now) then [a[0]] else [];
      assert (a + b)[0] == a[0];
      assert (a + b)[1..] == a[1..] + b;
      assert RecentItems(a + b, now) == head + RecentItems(a[1..] + b, now);
      assert RecentItems(a, now) == head + RecentItems(a[1..], now);
      RecentItemsAppend(a[1..], b, now);
      ConcatAssociative(head, RecentItems(a[1..], now), RecentItems(b, now));
    }
  }

  /** The number of transcript positions inside the burst window, counted from the newest item back. */
  function RecentCount(history: seq<ChatHistoryItem>, now: Timestamp): nat
    decreases |history|
  {
    if |history| == 0 then 0
    else (if IsRecent(history[|history| - 1], now) then 1 else 0) + RecentCount(history[..|history| - 1], now)
  }

  /** The burst list has one entry per transcript position inside the window. */
  lemma {:induction false} RecentItemsCount(history: seq<ChatHistoryItem>, now: Timestamp)
    ensures |RecentItems(history, now)| == RecentCount(history, now)
    decreases |history|
  {
    if |history| > 0 {
      var n := |history| - 1;
      assert history == history[..n] + [history[n]];
      RecentItemsAppend(history[..n], [history[n]], now);
      RecentItemsCount(history[..n], now);
    }
  }

  /** When every item is recent, the burst check counts all of them. */
  lemma {:induction false} AllRecentCounted(history: seq<ChatHistoryItem>, now: Timestamp)
    requires forall i :: 0 <= i < |history| ==> IsRecent(history[i], now)
    ensures |RecentItems(history, now)| == |history|
  {
    if |history| > 0 {
      AllRecentCounted(history[1..], now);
    }
  }

  /**
   * `_detect_abnormal_usage`: a single exchange over one of the three thresholds, or more than
   * ten history items inside the burst window.
   */
  predicate IsAbnormal(tokensInput: int, tokensOutput: int, cost: Micros,
                       history: seq<ChatHistoryItem>, now: Timestamp)
    ensures IsAbnormal(tokensInput, tokensOutput, cost, history, now) <==>
              || tokensInput > 10_000 || tokensOutput > 20_000 || cost > MicrosPerDollar
              || RecentCount(history, now) > 10
  {
    RecentItemsCount(history, now);
    || tokensInput > InputTokenLimit
    || tokensOutput > OutputTokenLimit
    || cost > CostLimit
    || |RecentItems(history, now)| > BurstLimit
  }

  /** A burst of more than ten recent items is flagged whatever the exchange itself looks like. */
  lemma BurstIsAbnormal(tokensInput: int, tokensOutput: int, cost: Micros,
                        history: seq<ChatHistoryItem>, now: Timestamp)
    requires |history| > BurstLimit
    requires forall i :: 0 <= i < |history| ==> IsRecent(history[i], now)
    ensures IsAbnormal(tokensInput, tokensOutput, cost, history, now)
  {
    AllRecentCounted(history, now);
  }

  /** At most ten items and every metric at or below its threshold is never flagged. */
  lemma QuietIsNormal(tokensInput: int, tokensOutput: int, cost: Micros,
                      history: seq<ChatHistoryItem>, now: Timestamp)
    requires tokensInput <= InputTokenLimit && tokensOutput <= OutputTokenLimit && cost <= CostLimit
    requires |history| <= BurstLimit
    ensures !IsAbnormal(tokensInput, tokensOutput, cost, history, now)
  {
  }

  /**
   * The burst window reads only the seconds component of the elapsed time: an item one day and
   * five seconds old still counts as recent.
   */
  lemma BurstWindowIgnoresDays(item: ChatHistoryItem, now: Timestamp)
    requires item.timestamp == now - MicrosPerDay - 5 * MicrosPerSecond
    ensures IsRecent(item, now)
  {
    assert (now - item.timestamp) / MicrosPerSecond == SecondsPerDay + 5;
  }

  // ---------------------------------------------------------------------------------------------
  // Daily reset and stats

  /** The daily counters are stale: no request yet, or the last one was on an earlier day. */
  predicate DayRolledOver(s: UsageStats, today: int) {
    s.lastRequestTime.None? || DayOf(s.lastRequestTime.value) < today
  }

  /** `_reset_daily_stats`: zero the three daily counters when the day has rolled over. */
  function ResetDaily(s: UsageStats, today: int): (r: UsageStats)
    ensures r.totalRequests == s.totalRequests && r.totalTokensInput == s.totalTokensInput
    ensures r.totalTokensOutput == s.totalTokensOutput && r.totalCost == s.totalCost
    ensures r.lastRequestTime == s.lastRequestTime
    ensures DayRolledOver(s, today) ==> r.requestsToday == 0 && r.tokensToday == 0 && r.costToday == 0
    ensures !DayRolledOver(s, today) ==> r == s
  {
    if DayRolledOver(s, today) then s.(requestsToday := 0, tokensToday := 0, costToday := 0) else s
  }

  /** `get_stats`: the stats after the lazy daily reset (the tracker keeps this value in memory). */
  function GetStats(s: UsageStats, today: int): (r: UsageStats)
    ensures r.totalRequests == s.totalRequests && r.totalTokensInput == s.totalTokensInput
    ensures r.totalTokensOutput == s.totalTokensOutput && r.totalCost == s.totalCost
    ensures r.lastRequestTime == s.lastRequestTime
    ensures r.requestsToday in {0, s.requestsToday} && r.tokensToday in {0, s.tokensToday}
    ensures r.costToday in {0, s.costToday}
    ensures DayRolledOver(s, today) ==> r.requestsToday == 0 && r.tokensToday == 0 && r.costToday == 0
    ensures !DayRolledOver(s, today) ==> r == s
  {
    ResetDaily(s, today)
  }

  /** Reading the stats twice on the same day gives the same answer. */
  lemma GetStatsIdempotent(s: UsageStats, today: int)
    ensures GetStats(GetStats(s, today), today) == GetStats(s, today)
  {
  }

  /**
   * An earlier reset is subsumed by a later one: since `get_stats` keeps its reset in memory,
   * a read before a `record_chat` on the same or a later day changes nothing that call computes.
   */
  lemma ResetDailyAbsorbs(s: UsageStats, earlier: int, later: int)
    requires earlier <= later
    ensures ResetDaily(ResetDaily(s, earlier), later) == ResetDaily(s, later)
  {
  }

  // ---------------------------------------------------------------------------------------------
  // Recording an exchange

  /** The diagnostic `record_chat` prints when an exchange is flagged. */
  datatype Alert = Alert(tokensInput: int, tokensOutput: int, cost: Micros, preview: string)

  /** The state after `record_chat`, and the diagnostic it emitted, if any. */
  datatype Recorded = Recorded(tracker: Tracker, alert: Option<Alert>)

  /** The first 100 characters of a message (`user_message[:100]`). */
  function Preview(s: string): (p: string)
    ensures |p| <= PreviewLength && p <= s
    ensures |s| <= PreviewLength ==> p == s
  {
    if |s| <= PreviewLength then s else s[..PreviewLength]
  }

  /** `self.history[-100:]` when the transcript has grown past the cap. */
  function Cap(h: seq<ChatHistoryItem>): (r: seq<ChatHistoryItem>)
    ensures |r| == if |h| > HistoryCap then HistoryCap else |h|
    ensures r == h[|h| - |r|..]
  {
    if |h| > HistoryCap then h[|h| - HistoryCap..] else h
  }

  /** Appending one item to the transcript and keeping the most recent 100. */
  function AppendCapped(h: seq<ChatHistoryItem>, item: ChatHistoryItem): (r: seq<ChatHistoryItem>)
    ensures |r| == if |h| < HistoryCap then |h| + 1 else HistoryCap
    ensures r == (h + [item])[|h| + 1 - |r|..]
    ensures r[|r| - 1] == item
  {
    Cap(h + [item])
  }

  /**
   * The diagnostic `record_chat` emits: present iff the exchange is abnormal against the transcript
   * before the append, and then carrying the exchange's usage and a preview of the user message.
   */
  function AlertFor(history: seq<ChatHistoryItem>, userMessage: string, tokensInput: int, tokensOutput: int,
                    cost: Micros, now: Timestamp): (a: Option<Alert>)
    ensures a.Some? <==> IsAbnormal(tokensInput, tokensOutput, cost, history, now)
    ensures a.Some? ==> a.value == Alert(tokensInput, tokensOutput, cost, Preview(userMessage))
    ensures a.Some? ==> a.value.preview <= userMessage
  {
    if IsAbnormal(tokensInput, tokensOutput, cost, history, now)
    then Some(Alert(tokensInput, tokensOutput, cost, Preview(userMessage)))
    else None
  }

  /** The counter updates of `record_chat`, applied after the lazy daily reset for the day of `now`. */
  function Count(s: UsageStats, tokensInput: int, tokensOutput: int, cost: Micros, now: Timestamp): (r: UsageStats)
    ensures r.totalRequests == s.totalRequests + 1
    ensures r.totalTokensInput == s.totalTokensInput + tokensInput
    ensures r.totalTokensOutput == s.totalTokensOutput + tokensOutput
    ensures r.totalCost == s.totalCost + cost
    ensures DayRolledOver(s, DayOf(now)) ==>
              && r.requestsToday == 1 && r.tokensToday == tokensInput + tokensOutput && r.costToday == cost
    ensures !DayRolledOver(s, DayOf(now)) ==>
              && r.requestsToday == s.requestsToday + 1
              && r.tokensToday == s.tokensToday + tokensInput + tokensOutput
              && r.costToday == s.costToday + cost
    ensures r.lastRequestTime == Some(now)
  {
    var daily := ResetDaily(s, DayOf(now));
    UsageStats(
      daily.totalRequests + 1,
      daily.totalTokensInput + tokensInput,
      daily.totalTokensOutput + tokensOutput,
      daily.totalCost + cost,
      daily.requestsToday + 1,
      daily.tokensToday + (tokensInput + tokensOutput),
      daily.costToday + cost,
      Some(now))
  }

  /**
   * `record_chat`: lazy daily reset, anomaly check against the transcript as it was before this
   * exchange, counter updates, timestamp, and the capped append of the new history item.
   */
  function RecordChat(t: Tracker, userMessage: string, assistantMessage: string,
                      tokensInput: int, tokensOutput: int, cost: Micros, now: Timestamp): (r: Recorded)
    ensures r.tracker.stats == Count(t.stats, tokensInput, tokensOutput, cost, now)
    ensures r.tracker.stats.totalRequests == t.stats.totalRequests + 1
    ensures r.tracker.stats.totalTokensInput == t.stats.totalTokensInput + tokensInput
    ensures r.tracker.stats.totalTokensOutput == t.stats.totalTokensOutput + tokensOutput
    ensures r.tracker.stats.totalCost == t.stats.totalCost + cost
    ensures DayRolledOver(t.stats, DayOf(now)) ==>
              && r.tracker.stats.requestsToday == 1
              && r.tracker.stats.tokensToday == tokensInput + tokensOutput
              && r.tracker.stats.costToday == cost
    ensures !DayRolledOver(t.stats, DayOf(now)) ==>
              && r.tracker.stats.requestsToday == t.stats.requestsToday + 1
              && r.tracker.stats.tokensToday == t.stats.tokensToday + tokensInput + tokensOutput
              && r.tracker.stats.costToday == t.stats.costToday + cost
    ensures r.tracker.stats.lastRequestTime == Some(now)
    ensures r.tracker.history
            == AppendCapped(t.history, ChatHistoryItem(now, userMessage, assistantMessage, tokensInput + tokensOutput, cost))
    ensures |r.tracker.history| == if |t.history| < HistoryCap then |t.history| + 1 else HistoryCap
    ensures r.tracker.history[|r.tracker.history| - 1]
              == ChatHistoryItem(now, userMessage, assistantMessage, tokensInput + tokensOutput, cost)
    ensures r.alert.Some? <==> IsAbnormal(tokensInput, tokensOutput, cost, t.history, now)
    ensures r.alert.Some? ==> r.alert.value.preview <= userMessage
    ensures r.alert == AlertFor(t.history, userMessage, tokensInput, tokensOutput, cost, now)
    ensures r.alert.Some? ==> r.alert.value == Alert(tokensInput, tokensOutput, cost, Preview(userMessage))
  {
    var item := ChatHistoryItem(now, userMessage, assistantMessage, tokensInput + tokensOutput, cost);
    var alert := AlertFor(t.history, userMessage, tokensInput, tokensOutput, cost, now);
    Recorded(Tracker(Count(t.stats, tokensInput, tokensOutput, cost, now), AppendCapped(t.history, item)), alert)
  }

  // ---------------------------------------------------------------------------------------------
  // Reading the transcript

  /** `get_history`: Python's `history[-limit:]`, or `[]` for an empty transcript. */
  function GetHistory(history: seq<ChatHistoryItem>, limit: int): (r: seq<ChatHistoryItem>)
    ensures limit > 0 ==> r == history[|history| - (if limit < |history| then limit else |history|)..]
    ensures limit == 0 ==> r == history
    ensures limit < 0 ==> r == history[(if -limit < |history| then -limit else |history|)..]
  {
    if |history| == 0 then []
    else
      var n := |history|;
      var start := -limit;
      var from := if start < 0 then (if start + n < 0 then 0 else start + n)
                  else (if start > n then n else start);
      history[from..]
  }

  /** Whatever the limit, the answer is the most recent part of the transcript, oldest first. */
  lemma GetHistoryIsSuffix(history: seq<ChatHistoryItem>, limit: int)
    ensures var r := GetHistory(history, limit); |r| <= |history| && r == history[|history| - |r|..]
  {
  }

  // ---------------------------------------------------------------------------------------------
  // The stats invariant

  /** Every stats field is non-negative. */
  predicate NonNegative(s: UsageStats) {
    && s.totalRequests >= 0 && s.totalTokensInput >= 0 && s.totalTokensOutput >= 0 && s.totalCost >= 0
    && s.requestsToday >= 0 && s.tokensToday >= 0 && s.costToday >= 0
  }

  /** Today's counters are part of the lifetime counters. */
  predicate TodayWithinTotals(s: UsageStats) {
    && s.requestsToday <= s.totalRequests
    && s.tokensToday <= s.totalTokensInput + s.totalTokensOutput
    && s.costToday <= s.totalCost
  }

  predicate ValidStats(s: UsageStats) {
    NonNegative(s) && TodayWithinTotals(s)
  }

  /** The default stats satisfy the invariant. */
  lemma DefaultStatsValid()
    ensures ValidStats(DefaultStats)
  {
  }

  /** The daily reset keeps the invariant. */
  lemma ResetDailyPreservesValid(s: UsageStats, today: int)
    requires ValidStats(s)
    ensures ValidStats(ResetDaily(s, today))
  {
  }

  /** Recording an exchange with a non-negative usage triple keeps the invariant. */
  lemma RecordChatPreservesValid(t: Tracker, userMessage: string, assistantMessage: string,
                                 tokensInput: int, tokensOutput: int, cost: Micros, now: Timestamp)
    requires ValidStats(t.stats)
    requires tokensInput >= 0 && tokensOutput >= 0 && cost >= 0
    ensures ValidStats(RecordChat(t, userMessage, assistantMessage, tokensInput, tokensOutput, cost, now).tracker.stats)
  {
  }
}
