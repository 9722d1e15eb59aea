/**
 * Sequences of `record_chat` calls on the tracker of `llm_dev1/usage_tracker.py`: what the
 * lifetime totals and the capped transcript hold after any number of exchanges.
 */
module TrackerReplay {
  import opened Wrappers
  import opened Schemas
  import opened UsageTracker

  /** One completed exchange as the chat gateway reports it, with the instant it was recorded. */
  datatype Exchange = Exchange(
    userMessage: string,
    assistantMessage: string,
    tokensInput: int,
    tokensOutput: int,
    cost: Micros,
    at: Timestamp)

  /** The transcript entry `record_chat` creates for an exchange. */
  function ItemOf(x: Exchange): ChatHistoryItem {
    ChatHistoryItem(x.at, x.userMessage, x.assistantMessage, x.tokensInput + x.tokensOutput, x.cost)
  }

  function Items(xs: seq<Exchange>): (items: seq<ChatHistoryItem>)
    ensures |items| == |xs|
    ensures forall i :: 0 <= i < |xs| ==> items[i] == ItemOf(xs[i])
  {
    seq(|xs|, i requires 0 <= i < |xs| => ItemOf(xs[i]))
  }

  lemma ItemsCons(xs: seq<Exchange>)
    requires |xs| > 0
    ensures Items(xs) == [ItemOf(xs[0])] + Items(xs[1..])
  {
    var l, r := Items(xs), [ItemOf(xs[0])] + Items(xs[1..]);
    forall i | 0 <= i < |l| ensures l[i] == r[i] {
      if i > 0 {
        assert r[i] == Items(xs[1..])[i - 1] == ItemOf(xs[1..][i - 1]);
      }
    }
  }

  /** The tracker after recording the exchanges one after another, first to last. */
  function RecordAll(t: Tracker, xs: seq<Exchange>): Tracker
    decreases |xs|
  {
    if |xs| == 0 then t
    else
      var x := xs[0];
      RecordAll(RecordChat(t, x.userMessage, x.assistantMessage, x.tokensInput, x.tokensOutput, x.cost, x.at).tracker,
                xs[1..])
  }

  function SumInput(xs: seq<Exchange>): int {
    if |xs| == 0 then 0 else xs[0].tokensInput + SumInput(xs[1..])
  }

  function SumOutput(xs: seq<Exchange>): int {
    if |xs| == 0 then 0 else xs[0].tokensOutput + SumOutput(xs[1..])
  }

  function SumCost(xs: seq<Exchange>): Micros {
    if |xs| == 0 then 0 else xs[0].cost + SumCost(xs[1..])
  }

  /** After N exchanges the lifetime totals have grown by N requests and by the summed usage. */
  lemma {:induction false} RecordAllTotals(t: Tracker, xs: seq<Exchange>)
    ensures RecordAll(t, xs).stats.totalRequests == t.stats.totalRequests + |xs|
    ensures RecordAll(t, xs).stats.totalTokensInput == t.stats.totalTokensInput + SumInput(xs)
    ensures RecordAll(t, xs).stats.totalTokensOutput == t.stats.totalTokensOutput + SumOutput(xs)
    ensures RecordAll(t, xs).stats.totalCost == t.stats.totalCost + SumCost(xs)
    decreases |xs|
  {
    if |xs| > 0 {
      var x := xs[0];
      var t1 := RecordChat(t, x.userMessage, x.assistantMessage, x.tokensInput, x.tokensOutput, x.cost, x.at).tracker;
      RecordAllTotals(t1, xs[1..]);
    }
  }

  /** The last exchange recorded stamps the stats. */
  lemma {:induction false} RecordAllStampsLast(t: Tracker, xs: seq<Exchange>)
    requires |xs| > 0
    ensures RecordAll(t, xs).stats.lastRequestTime == Some(xs[|xs| - 1].at)
    decreases |xs|
  {
    var x := xs[0];
    var t1 := RecordChat(t, x.userMessage, x.assistantMessage, x.tokensInput, x.tokensOutput, x.cost, x.at).tracker;
    if |xs| > 1 {
      RecordAllStampsLast(t1, xs[1..]);
    }
  }

  /** Capping in between appends loses nothing that the final cap would keep. */
  lemma CapAbsorbs(a: seq<ChatHistoryItem>, b: seq<ChatHistoryItem>)
    ensures Cap(Cap(a) + b) == Cap(a + b)
  {
    var s := a + b;
    var c := Cap(a) + b;
    var k := |a| - |Cap(a)|;
    assert c == s[k..];
    if |c| > HistoryCap {
      assert Cap(c) == s[|s| - HistoryCap..];
    } else if |a| > HistoryCap {
      assert b == [];
      assert s == a;
    }
  }

  /** A run is its first exchange followed by the rest. */
  lemma RecordAllStep(t: Tracker, xs: seq<Exchange>)
    requires |xs| > 0
    ensures RecordAll(t, xs)
            == RecordAll(RecordChat(t, xs[0].userMessage, xs[0].assistantMessage, xs[0].tokensInput,
                                    xs[0].tokensOutput, xs[0].cost, xs[0].at).tracker, xs[1..])
  {
  }

  /** One step of a run appends the exchange's item to the transcript and caps it. */
  lemma RecordChatAppends(t: Tracker, x: Exchange)
    ensures RecordChat(t, x.userMessage, x.assistantMessage, x.tokensInput, x.tokensOutput, x.cost, x.at).tracker.history
            == AppendCapped(t.history, ItemOf(x))
  {
    var item := ItemOf(x);
    var r := RecordChat(t, x.userMessage, x.assistantMessage, x.tokensInput, x.tokensOutput, x.cost, x.at);
    assert item == ChatHistoryItem(x.at, x.userMessage, x.assistantMessage, x.tokensInput + x.tokensOutput, x.cost);
    assert r.tracker.history == AppendCapped(t.history, item);
  }

  /** The transcript a run leaves behind, computed on the transcript alone. */
  function AppendAll(h: seq<ChatHistoryItem>, xs: seq<Exchange>): seq<ChatHistoryItem>
    decreases |xs|
  {
    if |xs| == 0 then h else AppendAll(AppendCapped(h, ItemOf(xs[0])), xs[1..])
  }

  lemma {:induction false} RecordAllAppends(t: Tracker, xs: seq<Exchange>)
    ensures RecordAll(t, xs).history == AppendAll(t.history, xs)
    decreases |xs|
  {
    if |xs| > 0 {
      var x := xs[0];
      var t1 := RecordChat(t, x.userMessage, x.assistantMessage, x.tokensInput, x.tokensOutput, x.cost, x.at).tracker;
      RecordChatAppends(t, x);
      RecordAllStep(t, xs);
      RecordAllAppends(t1, xs[1..]);
    }
  }

  lemma AppendAllStep(h: seq<ChatHistoryItem>, xs: seq<Exchange>)
    requires |xs| > 0
    ensures AppendAll(h, xs) == AppendAll(Cap(h + [ItemOf(xs[0])]), xs[1..])
  {
  }

  lemma ConcatItems(h: seq<ChatHistoryItem>, xs: seq<Exchange>)
    requires |xs| > 0
    ensures h + Items(xs) == (h + [ItemOf(xs[0])]) + Items(xs[1..])
  {
    ItemsCons(xs);
  }

  lemma {:induction false} AppendAllCaps(h: seq<ChatHistoryItem>, xs: seq<Exchange>)
    requires |xs| > 0
    ensures AppendAll(h, xs) == Cap(h + Items(xs))
    decreases |xs|
  {
    var a := h + [ItemOf(xs[0])];
    AppendAllStep(h, xs);
    ConcatItems(h, xs);
    if |xs| == 1 {
      assert Items(xs[1..]) == [];
      assert a + Items(xs[1..]) == a;
    } else {
      AppendAllCaps(Cap(a), xs[1..]);
      CapAbsorbs(a, Items(xs[1..]));
    }
  }

  /** The transcript after N exchanges is the capped concatenation of the old one and the new items. */
  lemma RecordAllHistory(t: Tracker, xs: seq<Exchange>)
    requires |xs| > 0
    ensures RecordAll(t, xs).history == Cap(t.history + Items(xs))
  {
    RecordAllAppends(t, xs);
    AppendAllCaps(t.history, xs);
  }

  /**
   * However long the run, a history request for at least 100 items returns exactly the last 100
   * exchanges, oldest first.
   */
  lemma KeepsLastHundred(t: Tracker, xs: seq<Exchange>, limit: int)
    requires |xs| >= HistoryCap && limit >= HistoryCap
    ensures GetHistory(RecordAll(t, xs).history, limit) == Items(xs)[|xs| - HistoryCap..]
  {
    calc {
      GetHistory(RecordAll(t, xs).history, limit);
      { RecordAllHistory(t, xs); }
      GetHistory(Cap(t.history + Items(xs)), limit);
      { CappedTail(t.history, Items(xs), limit); }
      Items(xs)[|xs| - HistoryCap..];
    }
  }

  lemma CappedTail(h: seq<ChatHistoryItem>, items: seq<ChatHistoryItem>, limit: int)
    requires |items| >= HistoryCap && limit >= HistoryCap
    ensures GetHistory(Cap(h + items), limit) == items[|items| - HistoryCap..]
  {
    var s := h + items;
    assert Cap(s) == s[|s| - HistoryCap..];
    assert s[|s| - HistoryCap..] == items[|items| - HistoryCap..];
  }

  /** Every exchange with a non-negative usage triple. */
  predicate NonNegativeUsage(xs: seq<Exchange>) {
    forall i :: 0 <= i < |xs| ==> xs[i].tokensInput >= 0 && xs[i].tokensOutput >= 0 && xs[i].cost >= 0
  }

  /** Today's counters stay within the lifetime totals across any run of well-formed exchanges. */
  lemma {:induction false} RecordAllPreservesValid(t: Tracker, xs: seq<Exchange>)
    requires ValidStats(t.stats) && NonNegativeUsage(xs)
    ensures ValidStats(RecordAll(t, xs).stats)
    decreases |xs|
  {
    if |xs| > 0 {
      var x := xs[0];
      RecordChatPreservesValid(t, x.userMessage, x.assistantMessage, x.tokensInput, x.tokensOutput, x.cost, x.at);
      var t1 := RecordChat(t, x.userMessage, x.assistantMessage, x.tokensInput, x.tokensOutput, x.cost, x.at).tracker;
      assert NonNegativeUsage(xs[1..]) by {
        forall i | 0 <= i < |xs| - 1 ensures xs[1..][i] == xs[i + 1] { }
      }
      RecordAllPreservesValid(t1, xs[1..]);
    }
  }
}
