/** The sliding-window limiter that keeps LLM calls under a per-minute
    token budget and a per-minute request budget. The wall clock is a
    `now: real` argument; a sleep of `d` seconds is modelled as the clock
    reading exactly `now + d` afterwards. */
module RateLimiting {

  /** Timestamps, oldest first. */
  ghost predicate Sorted(ts: seq<real>) {
    forall i, j :: 0 <= i < j < |ts| ==> ts[i] <= ts[j]
  }

  function Stamps(th: seq<(real, int)>): (r: seq<real>)
    ensures |r| == |th|
    ensures forall i :: 0 <= i < |th| ==> r[i] == th[i].0
  {
    if th == [] then [] else [th[0].0] + Stamps(th[1..])
  }

  /** Drops the longest prefix of token entries stamped before `cutoff`. */
  function DropOlderTokens(th: seq<(real, int)>, cutoff: real): (r: seq<(real, int)>)
    ensures |r| <= |th|
    ensures forall i :: 0 <= i < |th| - |r| ==> th[i].0 < cutoff
    ensures r == [] || r[0].0 >= cutoff
  {
    if th != [] && th[0].0 < cutoff then DropOlderTokens(th[1..], cutoff) else th
  }

  /** Drops the longest prefix of request stamps before `cutoff`. */
  function DropOlderRequests(rh: seq<real>, cutoff: real): (r: seq<real>)
    ensures |r| <= |rh|
    ensures forall i :: 0 <= i < |rh| - |r| ==> rh[i] < cutoff
    ensures r == [] || r[0] >= cutoff
  {
    if rh != [] && rh[0] < cutoff then DropOlderRequests(rh[1..], cutoff) else rh
  }

  /** Pruning removes a prefix: what is left is a suffix of the queue. */
  lemma DropOlderIsSuffix(th: seq<(real, int)>, cutoff: real)
    ensures DropOlderTokens(th, cutoff) == th[|th| - |DropOlderTokens(th, cutoff)|..]
    ensures DropOlderRequests(Stamps(th), cutoff)
         == Stamps(th)[|th| - |DropOlderRequests(Stamps(th), cutoff)|..]
  {
    DropOlderTokensIsSuffix(th, cutoff);
    DropOlderRequestsIsSuffix(Stamps(th), cutoff);
  }

  /** Pruning the token queue leaves a suffix of it. */
  lemma {:induction false} DropOlderTokensIsSuffix(th: seq<(real, int)>, cutoff: real)
    ensures DropOlderTokens(th, cutoff) == th[|th| - |DropOlderTokens(th, cutoff)|..]
    decreases |th|
  {
    if th != [] && th[0].0 < cutoff {
      DropOlderTokensIsSuffix(th[1..], cutoff);
      assert th[1..][|th| - 1 - |DropOlderTokens(th, cutoff)|..] == th[|th| - |DropOlderTokens(th, cutoff)|..];
    }
  }

  /** Pruning the request queue leaves a suffix of it. */
  lemma {:induction false} DropOlderRequestsIsSuffix(rh: seq<real>, cutoff: real)
    ensures DropOlderRequests(rh, cutoff) == rh[|rh| - |DropOlderRequests(rh, cutoff)|..]
    decreases |rh|
  {
    if rh != [] && rh[0] < cutoff {
      DropOlderRequestsIsSuffix(rh[1..], cutoff);
      assert rh[1..][|rh| - 1 - |DropOlderRequests(rh, cutoff)|..] == rh[|rh| - |DropOlderRequests(rh, cutoff)|..];
    }
  }

  /** Pruning keeps an upper bound on the remaining stamps. */
  lemma {:induction false} DropOlderKeepsBound(ts: seq<real>, cutoff: real, bound: real)
    requires forall i :: 0 <= i < |ts| ==> ts[i] <= bound
    ensures forall i :: 0 <= i < |DropOlderRequests(ts, cutoff)| ==> DropOlderRequests(ts, cutoff)[i] <= bound
    decreases |ts|
  {
    if ts != [] && ts[0] < cutoff {
      DropOlderKeepsBound(ts[1..], cutoff, bound);
    }
  }

  lemma SortedAppend(ts: seq<real>, x: real)
    requires Sorted(ts) && forall i :: 0 <= i < |ts| ==> ts[i] <= x
    ensures Sorted(ts + [x])
  {
  }

  /** Pruning a sorted queue leaves only entries inside the window. */
  lemma {:induction false} DropOlderLeavesRecent(ts: seq<real>, cutoff: real)
    requires Sorted(ts)
    ensures Sorted(DropOlderRequests(ts, cutoff))
    ensures forall i :: 0 <= i < |DropOlderRequests(ts, cutoff)| ==>
              DropOlderRequests(ts, cutoff)[i] >= cutoff
    decreases |ts|
  {
    if ts != [] && ts[0] < cutoff {
      assert Sorted(ts[1..]) by {
        forall i, j | 0 <= i < j < |ts| - 1 ensures ts[1..][i] <= ts[1..][j] {
          assert ts[1..][i] == ts[i + 1] && ts[1..][j] == ts[j + 1];
        }
      }
      DropOlderLeavesRecent(ts[1..], cutoff);
    } else if ts != [] {
      assert forall i :: 0 <= i < |ts| ==> ts[0] <= ts[i];
    }
  }

  /** Both queues are pruned by the same rule, so they stay in step. */
  lemma {:induction false} DropOlderKeepsStampsInStep(th: seq<(real, int)>, cutoff: real)
    ensures Stamps(DropOlderTokens(th, cutoff)) == DropOlderRequests(Stamps(th), cutoff)
    decreases |th|
  {
    if th != [] {
      DropOlderKeepsStampsInStep(th[1..], cutoff);
      assert Stamps(th)[1..] == Stamps(th[1..]);
    }
  }

  /** `sum(tokens for _, tokens in token_history)`. */
  function TotalTokens(th: seq<(real, int)>): int {
    if th == [] then 0 else th[0].1 + TotalTokens(th[1..])
  }

  lemma {:induction false} TotalTokensAppend(a: seq<(real, int)>, b: seq<(real, int)>)
    ensures TotalTokens(a + b) == TotalTokens(a) + TotalTokens(b)
    decreases |a|
  {
    if a == [] {
      assert a + b == b;
    } else {
      TotalTokensAppend(a[1..], b);
      assert (a + b)[1..] == a[1..] + b;
    }
  }

  /** The wait the limiter asks for on already-pruned queues: zero unless a
      budget would be exceeded and that budget's queue is non-empty; otherwise
      the largest of "oldest entry + window - now" over the exceeded budgets. */
  function WaitTime(th: seq<(real, int)>, rh: seq<real>, maxTokens: int, maxRequests: int,
                    window: int, now: real, tokenCount: int): (r: real)
    ensures var tokenWait := TotalTokens(th) + tokenCount > maxTokens && th != [];
            var requestWait := |rh| + 1 > maxRequests && rh != [];
            && (!tokenWait && !requestWait ==> r == 0.0)
            && (tokenWait ==> r >= th[0].0 + window as real - now)
            && (requestWait ==> r >= rh[0] + window as real - now)
            && (r == 0.0 || (tokenWait && r == th[0].0 + window as real - now)
                         || (requestWait && r == rh[0] + window as real - now))
  {
    var waits :=
      (if TotalTokens(th) + tokenCount > maxTokens && th != [] then [th[0].0 + window as real - now] else [])
      + (if |rh| + 1 > maxRequests && rh != [] then [rh[0] + window as real - now] else []);
    if waits == [] then 0.0 else MaxOf(waits)
  }

  /** The waits `calculate_wait_time` collects from the usage in the window:
      until the oldest token entry leaves it when the token budget would be
      exceeded, until the oldest request leaves it when the request budget
      would be; the longest of them, or none. */
  method WaitFromUsage(totalTokens: int, totalRequests: int, th: seq<(real, int)>, rh: seq<real>,
                       maxTokens: int, maxRequests: int, window: int, now: real, tokenCount: int)
    returns (wait: real)
    requires totalTokens == TotalTokens(th) && totalRequests == |rh|
    ensures wait == WaitTime(th, rh, maxTokens, maxRequests, window, now, tokenCount)
  {
    var waits: seq<real> := [];
    if totalTokens + tokenCount > maxTokens {
      if th != [] {
        waits := waits + [th[0].0 + window as real - now];
      }
    }
    if totalRequests + 1 > maxRequests {
      if rh != [] {
        waits := waits + [rh[0] + window as real - now];
      }
    }
    wait := if waits == [] then 0.0 else MaxOf(waits);
  }

  /** Python's `max()` of a non-empty list. */
  function MaxOf(s: seq<real>): (m: real)
    requires |s| > 0
    ensures m in s && forall i :: 0 <= i < |s| ==> s[i] <= m
  {
    if |s| == 1 then s[0]
    else
      var m := MaxOf(s[1..]);
      assert forall i :: 1 <= i < |s| ==> s[i] == s[1..][i - 1];
      if s[0] >= m then s[0] else m
  }

  /** Pruned at the same instant, the computed wait is never negative. */
  lemma {:induction false} WaitTimeNonNegative(th: seq<(real, int)>, maxTokens: int, maxRequests: int,
                            window: int, now: real, tokenCount: int)
    requires Sorted(Stamps(th))
    ensures WaitTime(DropOlderTokens(th, now - window as real),
                     DropOlderRequests(Stamps(th), now - window as real),
                     maxTokens, maxRequests, window, now, tokenCount) >= 0.0
  {
    DropOlderKeepsStampsInStep(th, now - window as real);
    DropOlderLeavesRecent(Stamps(th), now - window as real);
  }

  /** With a non-negative window, the entry `acquire` appends is never
      pruned by the usage check that follows it. */
  lemma {:induction false} NewEntrySurvives(th: seq<(real, int)>, stamp: real, tokens: int, window: int)
    requires window >= 0
    ensures var r := DropOlderTokens(th + [(stamp, tokens)], stamp - window as real);
            |r| >= 1 && r[|r| - 1] == (stamp, tokens)
    decreases |th|
  {
    if th != [] {
      assert (th + [(stamp, tokens)])[1..] == th[1..] + [(stamp, tokens)];
      NewEntrySurvives(th[1..], stamp, tokens, window);
    }
  }

  /** When `acquire` has to wait, the wait ends just after the oldest entry
      leaves the window, so recording the new request does not grow the
      window's queue. */
  lemma {:induction false} WaitingFreesASlot(th: seq<(real, int)>, maxTokens: int, maxRequests: int,
                          window: int, now: real, tokens: int)
    requires WaitTime(th, Stamps(th), maxTokens, maxRequests, window, now, tokens) > 0.0
    ensures var stamp := now + WaitTime(th, Stamps(th), maxTokens, maxRequests, window, now, tokens) + 0.1;
            |DropOlderTokens(th + [(stamp, tokens)], stamp - window as real)| <= |th|
  {
    var wait := WaitTime(th, Stamps(th), maxTokens, maxRequests, window, now, tokens);
    var stamp := now + wait + 0.1;
    var s := th + [(stamp, tokens)];
    assert th != [] && wait == th[0].0 + window as real - now;
    assert s[0] == th[0] && s[0].0 < stamp - window as real;
    assert s[1..] == th[1..] + [(stamp, tokens)];
  }

  /** Correcting the last entry changes the window total by the difference
      between the actual and the estimated count. */
  lemma {:induction false} RecordActualAdjustsTotal(th: seq<(real, int)>, actual: int)
    requires th != []
    ensures TotalTokens(th[..|th| - 1] + [(th[|th| - 1].0, actual)])
         == TotalTokens(th) - th[|th| - 1].1 + actual
  {
    var n := |th|;
    TotalTokensAppend(th[..n - 1], [(th[n - 1].0, actual)]);
    TotalTokensAppend(th[..n - 1], [th[n - 1]]);
    assert th[..n - 1] + [th[n - 1]] == th;
  }

  datatype UsageStats = UsageStats(
    tokensUsed: int, tokensLimit: int, tokensRemaining: int,
    requestsUsed: int, requestsLimit: int, requestsRemaining: int,
    windowSeconds: int)

  class RateLimiter {
    const maxTokensPerMinute: int
    const maxRequestsPerMinute: int
    const windowSeconds: int
    /** (timestamp, token count) per request, oldest first. */
    var tokenHistory: seq<(real, int)>
    /** Timestamp per request, oldest first. */
    var requestHistory: seq<real>

    /** The two queues record the same requests at the same instants, in
        time order. */
    ghost predicate Valid()
      reads this
    {
      Stamps(tokenHistory) == requestHistory && Sorted(requestHistory)
    }

    constructor(maxTokens: int := 40000, maxRequests: int := 50, window: int := 60)
      ensures Valid()
      ensures maxTokensPerMinute == maxTokens && maxRequestsPerMinute == maxRequests
      ensures windowSeconds == window
      ensures tokenHistory == [] && requestHistory == []
    {
      maxTokensPerMinute := maxTokens;
      maxRequestsPerMinute := maxRequests;
      windowSeconds := window;
      tokenHistory := [];
      requestHistory := [];
    }

    /** Pops entries older than `now - window` from the front of both queues. */
    method CleanOldEntries(now: real)
      requires Valid()
      modifies this
      ensures Valid()
      ensures tokenHistory == DropOlderTokens(old(tokenHistory), now - windowSeconds as real)
      ensures requestHistory == DropOlderRequests(old(requestHistory), now - windowSeconds as real)
      ensures forall i :: 0 <= i < |requestHistory| ==> requestHistory[i] >= now - windowSeconds as real
    {
      var cutoff := now - windowSeconds as real;
      var th, rh := tokenHistory, requestHistory;
      ghost var th0, rh0 := th, rh;
      while th != [] && th[0].0 < cutoff
        invariant DropOlderTokens(th, cutoff) == DropOlderTokens(th0, cutoff)
        decreases |th|
      {
        th := th[1..];
      }
      while rh != [] && rh[0] < cutoff
        invariant DropOlderRequests(rh, cutoff) == DropOlderRequests(rh0, cutoff)
        decreases |rh|
      {
        rh := rh[1..];
      }
      assert th == DropOlderTokens(old(tokenHistory), now - windowSeconds as real);
      assert rh == DropOlderRequests(old(requestHistory), now - windowSeconds as real);
      DropOlderKeepsStampsInStep(th0, cutoff);
      DropOlderLeavesRecent(rh0, cutoff);
      tokenHistory, requestHistory := th, rh;
    }

    /** Token and request totals inside the window ending at `now`. */
    method GetCurrentUsage(now: real) returns (totalTokens: int, totalRequests: int)
      requires Valid()
      modifies this
      ensures Valid()
      ensures tokenHistory == DropOlderTokens(old(tokenHistory), now - windowSeconds as real)
      ensures requestHistory == DropOlderRequests(old(requestHistory), now - windowSeconds as real)
      ensures totalTokens == TotalTokens(tokenHistory) && totalRequests == |requestHistory|
    {
      CleanOldEntries(now);
      totalTokens := TotalTokens(tokenHistory);
      totalRequests := |requestHistory|;
    }

    /** How long to wait before a request of `tokenCount` tokens. */
    method CalculateWaitTime(now: real, tokenCount: int) returns (wait: real)
      requires Valid()
      modifies this
      ensures Valid()
      ensures tokenHistory == DropOlderTokens(old(tokenHistory), now - windowSeconds as real)
      ensures requestHistory == DropOlderRequests(old(requestHistory), now - windowSeconds as real)
      ensures wait == WaitTime(tokenHistory, requestHistory, maxTokensPerMinute, maxRequestsPerMinute,
                               windowSeconds, now, tokenCount)
      ensures wait >= 0.0
    {
      ghost var th0 := tokenHistory;
      CleanOldEntries(now);
      var totalTokens, totalRequests := GetCurrentUsage(now);
      DropOlderIdempotent(th0, now - windowSeconds as real);
      wait := WaitFromUsage(totalTokens, totalRequests, tokenHistory, requestHistory, maxTokensPerMinute,
                            maxRequestsPerMinute, windowSeconds, now, tokenCount);
      WaitTimeNonNegative(th0, maxTokensPerMinute, maxRequestsPerMinute, windowSeconds, now, tokenCount);
    }

    /** Waits if a budget would be exceeded, then records the request at the
        instant the wait ends. The clock never runs backwards. Returns that
        instant. */
    method Acquire(now: real, estimatedTokens: int := 1000) returns (stamp: real)
      requires Valid()
      requires forall i :: 0 <= i < |requestHistory| ==> requestHistory[i] <= now
      modifies this
      ensures Valid()
      ensures var th := DropOlderTokens(old(tokenHistory), now - windowSeconds as real);
              var wait := WaitTime(th, Stamps(th), maxTokensPerMinute, maxRequestsPerMinute,
                                   windowSeconds, now, estimatedTokens);
              && stamp == (if wait > 0.0 then now + wait + 0.1 else now)
              && tokenHistory == DropOlderTokens(th + [(stamp, estimatedTokens)],
                                                 stamp - windowSeconds as real)
      ensures windowSeconds >= 0 ==>
                |tokenHistory| >= 1 && tokenHistory[|tokenHistory| - 1] == (stamp, estimatedTokens)
      ensures forall i :: 0 <= i < |requestHistory| ==> requestHistory[i] <= stamp
    {
      ghost var th0, rh0 := tokenHistory, requestHistory;
      var wait := CalculateWaitTime(now, estimatedTokens);
      DropOlderKeepsStampsInStep(th0, now - windowSeconds as real);
      DropOlderKeepsBound(rh0, now - windowSeconds as real, now);
      stamp := now;
      if wait > 0.0 {
        stamp := now + wait + 0.1;
      }
      assert tokenHistory == DropOlderTokens(th0, now - windowSeconds as real);
      RecordRequest(stamp, estimatedTokens);
    }

    /** The end of `acquire`: the request is recorded at `stamp` in both
        queues, which are then pruned at `stamp`. */
    method RecordRequest(stamp: real, tokens: int)
      requires Valid()
      requires forall i :: 0 <= i < |requestHistory| ==> requestHistory[i] <= stamp
      modifies this
      ensures Valid()
      ensures tokenHistory == DropOlderTokens(old(tokenHistory) + [(stamp, tokens)], stamp - windowSeconds as real)
      ensures windowSeconds >= 0 ==> |tokenHistory| >= 1 && tokenHistory[|tokenHistory| - 1] == (stamp, tokens)
      ensures forall i :: 0 <= i < |requestHistory| ==> requestHistory[i] <= stamp
    {
      SortedAppend(requestHistory, stamp);
      BoundAppend(requestHistory, stamp);
      ghost var th1 := tokenHistory;
      tokenHistory := tokenHistory + [(stamp, tokens)];
      requestHistory := requestHistory + [stamp];
      assert Stamps(tokenHistory) == requestHistory;
      ghost var rh1 := requestHistory;
      var currentTokens, currentRequests := GetCurrentUsage(stamp);
      DropOlderKeepsBound(rh1, stamp - windowSeconds as real, stamp);
      if windowSeconds >= 0 {
        NewEntrySurvives(th1, stamp, tokens, windowSeconds);
      }
    }

    /** Replaces the token count of the most recent entry, keeping its
        timestamp; nothing happens when there is no entry. */
    method RecordActualUsage(actualTokens: int)
      requires Valid()
      modifies this
      ensures Valid()
      ensures requestHistory == old(requestHistory)
      ensures old(tokenHistory) == [] ==> tokenHistory == []
      ensures old(tokenHistory) != [] ==>
                var n := |old(tokenHistory)|;
                tokenHistory == old(tokenHistory)[..n - 1] + [(old(tokenHistory)[n - 1].0, actualTokens)]
    {
      if tokenHistory != [] {
        var last := tokenHistory[|tokenHistory| - 1];
        tokenHistory := tokenHistory[..|tokenHistory| - 1];
        tokenHistory := tokenHistory + [(last.0, actualTokens)];
        assert Stamps(tokenHistory) == requestHistory;
      }
    }

    /** Usage within the window ending at `now`, with what is left of each
        budget (negative when a budget is overdrawn). */
    method GetUsageStats(now: real) returns (stats: UsageStats)
      requires Valid()
      modifies this
      ensures Valid()
      ensures tokenHistory == DropOlderTokens(old(tokenHistory), now - windowSeconds as real)
      ensures requestHistory == DropOlderRequests(old(requestHistory), now - windowSeconds as real)
      ensures stats.tokensUsed == TotalTokens(tokenHistory) && stats.requestsUsed == |requestHistory|
      ensures stats.tokensLimit == maxTokensPerMinute && stats.requestsLimit == maxRequestsPerMinute
      ensures stats.tokensRemaining == stats.tokensLimit - stats.tokensUsed
      ensures stats.requestsRemaining == stats.requestsLimit - stats.requestsUsed
      ensures stats.windowSeconds == windowSeconds
    {
      var totalTokens, totalRequests := GetCurrentUsage(now);
      stats := UsageStats(
        totalTokens, maxTokensPerMinute, maxTokensPerMinute - totalTokens,
        totalRequests, maxRequestsPerMinute, maxRequestsPerMinute - totalRequests,
        windowSeconds);
    }
  }

  lemma BoundAppend(ts: seq<real>, x: real)
    requires forall i :: 0 <= i < |ts| ==> ts[i] <= x
    ensures forall i :: 0 <= i < |ts + [x]| ==> (ts + [x])[i] <= x
  {
  }

  /** Pruning twice at the same instant prunes nothing more. */
  lemma DropOlderIdempotent(th: seq<(real, int)>, cutoff: real)
    ensures DropOlderTokens(DropOlderTokens(th, cutoff), cutoff) == DropOlderTokens(th, cutoff)
    ensures DropOlderRequests(DropOlderRequests(Stamps(th), cutoff), cutoff)
         == DropOlderRequests(Stamps(th), cutoff)
  {
  }
}
