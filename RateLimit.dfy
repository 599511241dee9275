/**
 * The per-client sliding-window rate limiter of the proxy.
 *
 * A table maps each client key to the list of timestamps (milliseconds) of
 * its recent calls. A call at time `now` keeps only the timestamps `ts`
 * with `now - ts < WindowMs`, appends `now`, stores the list back and is
 * limited exactly when the stored list holds more than `Limit` entries.
 *
 * Timestamps are unbounded integers: the source's `Date.now()` values are
 * integral doubles far below 2^53, so its subtraction is exact.
 */
module RateLimit {

  const WindowMs: int := 10 * 1000
  const Limit: nat := 3

  type Table = map<string, seq<int>>

  /** The stored list for `ip`, or the empty list when the key is absent. */
  function Lookup(table: Table, ip: string): seq<int>
  {
    if ip in table then table[ip] else []
  }

  /** Whether `ts` is still inside the window that ends at `now`. */
  predicate InWindow(ts: int, now: int)
  {
    now - ts < WindowMs
  }

  /** The timestamps of `calls` still inside the window at `now`, in order. */
  function Recent(calls: seq<int>, now: int): (r: seq<int>)
    ensures |r| <= |calls|
    ensures forall i :: 0 <= i < |r| ==> InWindow(r[i], now)
    ensures forall x :: x in r <==> x in calls && InWindow(x, now)
  {
    if calls == [] then []
    else if InWindow(calls[0], now) then [calls[0]] + Recent(calls[1..], now)
    else Recent(calls[1..], now)
  }

  /**
   * The list stored for a client after a call at `now`: the entries of
   * `calls` still inside the window, in their order, then `now`.
   */
  function Push(calls: seq<int>, now: int): (r: seq<int>)
    ensures 0 < |r| <= |calls| + 1 && r[|r| - 1] == now
  {
    Recent(calls, now) + [now]
  }

  /** Before `now`, the stored list holds exactly the old entries inside the window. */
  lemma PushMembers(calls: seq<int>, now: int)
    ensures var r := Push(calls, now);
      forall x :: x in r[..|r| - 1] <==> x in calls && InWindow(x, now)
  {
    var kept := Recent(calls, now);
    assert Push(calls, now)[..|kept|] == kept;
  }

  /** The table after one call by `ip` at `now`; no other key changes. */
  function Step(table: Table, ip: string, now: int): (r: Table)
    ensures r.Keys == table.Keys + {ip}
    ensures forall k :: k in table && k != ip ==> r[k] == table[k]
    ensures r[ip] == Push(Lookup(table, ip), now)
  {
    table[ip := Push(Lookup(table, ip), now)]
  }

  /** Whether the call by `ip` at `now` is reported as limited. */
  function Verdict(table: Table, ip: string, now: int): (limited: bool)
    ensures limited <==> |Recent(Lookup(table, ip), now)| >= Limit
  {
    |Push(Lookup(table, ip), now)| > Limit
  }

  /**
   * The in-memory call log, updated in place by every request other than
   * OPTIONS, rejected ones included.
   */
  class RateLimiter {
    var recentCalls: Table

    constructor ()
      ensures recentCalls == map[]
      ensures forall clock :: Ordered(recentCalls, clock)
    {
      recentCalls := map[];
      new;
      forall clock ensures Ordered(recentCalls, clock) {
        EmptyTableOrdered(clock);
      }
    }

    /** Records a call by `ip` at `now` and reports whether it is limited. */
    method IsRateLimited(ip: string, now: int) returns (limited: bool)
      modifies this
      ensures recentCalls == Step(old(recentCalls), ip, now)
      ensures recentCalls[ip] == Recent(Lookup(old(recentCalls), ip), now) + [now]
      ensures limited <==> |recentCalls[ip]| > Limit
      ensures limited == Verdict(old(recentCalls), ip, now)
    {
      var calls := Lookup(recentCalls, ip);
      var recent := Recent(calls, now);
      recent := recent + [now];
      recentCalls := recentCalls[ip := recent];
      limited := |recent| > Limit;
    }
  }

  /* ---------- Properties of the filter ---------- */

  /** Filtering distributes over concatenation: order is preserved. */
  lemma {:induction false} RecentConcat(a: seq<int>, b: seq<int>, now: int)
    ensures Recent(a + b, now) == Recent(a, now) + Recent(b, now)
  {
    if a == [] {
      assert a + b == b;
    } else {
      assert (a + b)[0] == a[0];
      assert (a + b)[1..] == a[1..] + b;
      RecentConcat(a[1..], b, now);
    }
  }

  /** A list whose every entry is inside the window is kept whole. */
  lemma {:induction false} RecentKeepsAll(calls: seq<int>, now: int)
    requires forall i :: 0 <= i < |calls| ==> InWindow(calls[i], now)
    ensures Recent(calls, now) == calls
  {
    if calls != [] {
      RecentKeepsAll(calls[1..], now);
    }
  }

  /** A list whose every entry is outside the window is dropped whole. */
  lemma {:induction false} RecentDropsAll(calls: seq<int>, now: int)
    requires forall i :: 0 <= i < |calls| ==> !InWindow(calls[i], now)
    ensures Recent(calls, now) == []
  {
    if calls != [] {
      RecentDropsAll(calls[1..], now);
    }
  }

  /**
   * Pruning lazily at an earlier time and then at a later one is the same
   * as pruning once at the later time.
   */
  lemma {:induction false} RecentLater(calls: seq<int>, earlier: int, later: int)
    requires earlier <= later
    ensures Recent(Recent(calls, earlier), later) == Recent(calls, later)
  {
    if calls != [] {
      RecentLater(calls[1..], earlier, later);
    }
  }

  predicate Sorted(s: seq<int>)
  {
    forall i, j :: 0 <= i < j < |s| ==> s[i] <= s[j]
  }

  /** The kept timestamps are a subsequence, so sortedness survives. */
  lemma {:induction false} RecentSorted(calls: seq<int>, now: int)
    requires Sorted(calls)
    ensures Sorted(Recent(calls, now))
  {
    if calls != [] {
      RecentSorted(calls[1..], now);
      var rest := Recent(calls[1..], now);
      forall x | x in rest ensures calls[0] <= x {
        var j :| 0 <= j < |calls[1..]| && calls[1..][j] == x;
        assert calls[0] <= calls[j + 1];
      }
    }
  }

  /* ---------- Properties of one call ---------- */

  /** A call is limited exactly when the list stored for it exceeds `Limit` entries. */
  lemma LimitedIffStoredOverLimit(table: Table, ip: string, now: int)
    ensures Verdict(table, ip, now) <==> |Step(table, ip, now)[ip]| > Limit
  {
  }

  /**
   * A client whose every stored timestamp has left the window is admitted,
   * and its stored list becomes just the new call.
   */
  lemma QuietClientAdmitted(table: Table, ip: string, now: int)
    requires forall i :: 0 <= i < |Lookup(table, ip)| ==> !InWindow(Lookup(table, ip)[i], now)
    ensures !Verdict(table, ip, now)
    ensures Step(table, ip, now)[ip] == [now]
  {
    RecentDropsAll(Lookup(table, ip), now);
  }

  /* ---------- Invariant kept by calls with a non-decreasing clock ---------- */

  /**
   * A stored list that is non-empty, sorted, no later than `clock`, and lies
   * inside the window that ends at its own last (most recent) entry.
   */
  ghost predicate OrderedList(s: seq<int>, clock: int)
  {
    && |s| > 0
    && Sorted(s)
    && s[|s| - 1] <= clock
    && forall i :: 0 <= i < |s| ==> InWindow(s[i], s[|s| - 1])
  }

  /** Every list of the log is ordered and no later than `clock`. */
  ghost predicate Ordered(table: Table, clock: int)
  {
    forall k :: k in table ==> OrderedList(table[k], clock)
  }

  /** The log a new `RateLimiter` starts with is ordered at any clock. */
  lemma EmptyTableOrdered(clock: int)
    ensures Ordered(map[], clock)
  {
  }

  /** The list stored by one call at a time no earlier than `clock`. */
  lemma StepListOrdered(calls: seq<int>, clock: int, now: int)
    requires calls == [] || OrderedList(calls, clock)
    requires clock <= now
    ensures OrderedList(Recent(calls, now) + [now], now)
  {
    var kept := Recent(calls, now);
    var r := kept + [now];
    if calls != [] {
      RecentSorted(calls, now);
      forall x | x in kept ensures x <= now {
        var i :| 0 <= i < |calls| && calls[i] == x;
        assert calls[i] <= calls[|calls| - 1];
      }
    }
    forall i, j | 0 <= i < j < |r| ensures r[i] <= r[j] {
      if j < |kept| {
        assert r[i] == kept[i] && r[j] == kept[j];
      } else {
        assert r[i] == kept[i] && kept[i] in kept;
      }
    }
    forall i | 0 <= i < |r| ensures InWindow(r[i], now) {
      if i < |kept| {
        assert r[i] == kept[i];
      }
    }
  }

  /** A call at a time no earlier than every previous one keeps `Ordered`. */
  lemma StepKeepsOrdered(table: Table, clock: int, ip: string, now: int)
    requires Ordered(table, clock)
    requires clock <= now
    ensures Ordered(Step(table, ip, now), now)
  {
    StepListOrdered(Lookup(table, ip), clock, now);
    var r := Step(table, ip, now);
    assert r[ip] == Recent(Lookup(table, ip), now) + [now];
    forall k | k in r ensures OrderedList(r[k], now) {
      if k != ip {
        assert r[k] == table[k] && OrderedList(table[k], clock);
      }
    }
  }

  /* ---------- Sequences of calls by one client ---------- */

  /** The table after `ip` calls at each of `times`, in order. */
  function Replay(table: Table, ip: string, times: seq<int>): Table
  {
    if times == [] then table
    else Step(Replay(table, ip, times[..|times| - 1]), ip, times[|times| - 1])
  }

  /** The table after a replay is the last call's update of the one before. */
  lemma ReplayUnfold(table: Table, ip: string, times: seq<int>)
    requires times != []
    ensures Replay(table, ip, times)
         == Step(Replay(table, ip, times[..|times| - 1]), ip, times[|times| - 1])
  {
  }

  /** The list stored for one client after its calls at each of `times`. */
  function ReplayList(calls: seq<int>, times: seq<int>): seq<int>
  {
    if times == [] then calls
    else Push(ReplayList(calls, times[..|times| - 1]), times[|times| - 1])
  }

  /** Replaying one client's calls touches only its own list. */
  lemma {:induction false} ReplayLookup(table: Table, ip: string, times: seq<int>)
    ensures Lookup(Replay(table, ip, times), ip) == ReplayList(Lookup(table, ip), times)
    ensures forall k :: k != ip ==> Lookup(Replay(table, ip, times), k) == Lookup(table, k)
  {
    if times != [] {
      ReplayLookup(table, ip, times[..|times| - 1]);
    }
  }

  /** Whether the last call of `times` (by `ip`) is reported as limited. */
  function LastVerdict(table: Table, ip: string, times: seq<int>): bool
    requires times != []
  {
    Verdict(Replay(table, ip, times[..|times| - 1]), ip, times[|times| - 1])
  }

  /** Each call time is no earlier than the one before it. */
  predicate Rising(times: seq<int>)
  {
    |times| < 2 || (Rising(times[..|times| - 1]) && times[|times| - 2] <= times[|times| - 1])
  }

  /** A sorted sequence of times rises step by step. */
  lemma {:induction false} SortedRising(times: seq<int>)
    requires Sorted(times)
    ensures Rising(times)
  {
    if |times| >= 2 {
      var p := times[..|times| - 1];
      assert Sorted(p) by {
        forall i, j | 0 <= i < j < |p| ensures p[i] <= p[j] {
          assert p[i] == times[i] && p[j] == times[j];
        }
      }
      SortedRising(p);
    }
  }

  /**
   * With a non-decreasing clock, lazy pruning at every call leaves exactly
   * what one eager pruning at the last call would: the earlier entries
   * (stored ones and every earlier call, rejected ones included) still
   * inside the window, followed by the last call.
   */
  lemma {:induction false} ReplayWindow(calls: seq<int>, times: seq<int>)
    requires times != []
    requires Rising(times)
    ensures ReplayList(calls, times) == Push(calls + times[..|times| - 1], times[|times| - 1])
  {
    var n := |times|;
    var t := times[n - 1];
    var p := times[..n - 1];
    assert ReplayList(calls, times) == Push(ReplayList(calls, p), t);
    if n == 1 {
      assert p == [] && calls + p == calls;
    } else {
      var s, q := p[n - 2], p[..n - 2];
      ReplayWindow(calls, p);
      assert ReplayList(calls, p) == Push(calls + q, s);
      PushTwice(calls + q, s, t);
      assert calls + q + [s] == calls + p by {
        assert q + [s] == p;
      }
    }
  }

  /** The list stored at time `earlier`, updated again at `later`. */
  lemma PushTwice(calls: seq<int>, earlier: int, later: int)
    requires earlier <= later
    ensures Push(Push(calls, earlier), later) == Push(calls + [earlier], later)
  {
    RecentConcat(Recent(calls, earlier), [earlier], later);
    RecentLater(calls, earlier, later);
    RecentConcat(calls, [earlier], later);
  }

  /**
   * Within any window, the fourth call is limited, whatever the table held
   * before: the three calls before it are still inside the window.
   */
  lemma FourthCallInWindowLimited(table: Table, ip: string, times: seq<int>)
    requires |times| >= 4
    requires Sorted(times)
    requires InWindow(times[|times| - 4], times[|times| - 1])
    ensures LastVerdict(table, ip, times)
  {
    var n := |times|;
    SortedRising(times);
    forall i | n - 4 <= i < n - 1 ensures InWindow(times[i], times[n - 1]) {
      assert times[n - 4] <= times[i];
    }
    LastThreeInWindowLimited(table, ip, times);
  }

  /** The call after three calls still inside its window is limited. */
  lemma LastThreeInWindowLimited(table: Table, ip: string, times: seq<int>)
    requires |times| >= 4
    requires Rising(times)
    requires forall i :: |times| - 4 <= i < |times| - 1 ==> InWindow(times[i], times[|times| - 1])
    ensures LastVerdict(table, ip, times)
  {
    var p := times[..|times| - 1];
    ReplayLookup(table, ip, p);
    LastThreeInWindowList(Lookup(table, ip), times);
  }

  /** The same, for the list of one client. */
  lemma LastThreeInWindowList(base: seq<int>, times: seq<int>)
    requires |times| >= 4
    requires Rising(times)
    requires forall i :: |times| - 4 <= i < |times| - 1 ==> InWindow(times[i], times[|times| - 1])
    ensures |ReplayList(base, times)| > Limit
  {
    var n := |times|;
    var t := times[n - 1];
    var p := times[..n - 1];
    ReplayWindow(base, times);
    forall i | |p| - 3 <= i < |p| ensures InWindow(p[i], t) {
      assert p[i] == times[i];
    }
    LastThreeKept(base, p, t);
  }

  /** Three earlier calls inside the window keep the count at three. */
  lemma LastThreeKept(base: seq<int>, p: seq<int>, t: int)
    requires |p| >= 3
    requires forall i :: |p| - 3 <= i < |p| ==> InWindow(p[i], t)
    ensures |Recent(base + p, t)| >= Limit
  {
    var n := |p|;
    var head, tail := base + p[..n - 3], p[n - 3..];
    forall i | 0 <= i < |tail| ensures InWindow(tail[i], t) {
      assert tail[i] == p[n - 3 + i];
    }
    RecentKeepsAll(tail, t);
    assert base + p == head + tail;
    RecentConcat(head, tail, t);
  }

  /**
   * A client that keeps calling stays limited: once a call is limited, the
   * next ones are limited too while the whole burst fits in one window.
   * Rejected calls are recorded, so they count against later ones.
   */
  lemma RejectedCallsCount(table: Table, ip: string, times: seq<int>)
    requires |times| >= 4
    requires Sorted(times)
    requires InWindow(times[0], times[|times| - 1])
    ensures forall k :: 4 <= k <= |times| ==> LastVerdict(table, ip, times[..k])
  {
    forall k | 4 <= k <= |times| ensures LastVerdict(table, ip, times[..k]) {
      var pre := times[..k];
      assert pre[|pre| - 4] == times[k - 4] && pre[|pre| - 1] == times[k - 1];
      assert times[0] <= times[k - 4] && times[k - 1] <= times[|times| - 1];
      FourthCallInWindowLimited(table, ip, pre);
    }
  }
}
