/*
 * The sliding-window rate limiter of mcp_server/utils/rate_limiter.py.
 *
 * A limiter keeps the times of the requests it admitted, oldest first.
 * Admission first drops, from the front, every time more than `window`
 * ticks before `now`, then admits iff fewer than `maxRequests` remain,
 * recording `now` at the back. Time is an integer tick passed in by the
 * caller; `time.sleep(1)` in the retry loop is one tick.
 */
module RateLimiting {

  /**
   * The queue left after the pruning loop: leading times with
   * `now - t > window` are dropped, and dropping stops at the first time
   * that is at most `window` old (a time exactly `window` old is kept).
   */
  function Prune(q: seq<int>, now: int, window: int): (r: seq<int>)
    ensures |r| <= |q| && r == q[|q| - |r|..]
    ensures r == [] || now - r[0] <= window
  {
    if q != [] && now - q[0] > window then Prune(q[1..], now, window) else q
  }

  /** Everything pruning drops is more than `window` old. */
  lemma {:induction false} PruneDropsExpired(q: seq<int>, now: int, window: int)
    ensures forall k :: 0 <= k < |q| - |Prune(q, now, window)| ==> now - q[k] > window
  {
    if q != [] && now - q[0] > window {
      PruneDropsExpired(q[1..], now, window);
      forall k | 0 <= k < |q| - |Prune(q, now, window)| ensures now - q[k] > window {
        if k > 0 { assert q[k] == q[1..][k - 1]; }
      }
    }
  }

  /** One `can_make_request` at time `now`: whether it admits, and the queue afterwards. */
  function Admit(q: seq<int>, now: int, maxRequests: int, window: int): (r: (bool, seq<int>))
    ensures r.0 <==> |Prune(q, now, window)| < maxRequests
    ensures r.0 ==> |r.1| <= maxRequests && r.1 == Prune(q, now, window) + [now]
    ensures !r.0 ==> |r.1| <= |q| && r.1 == Prune(q, now, window)
  {
    var pruned := Prune(q, now, window);
    if |pruned| < maxRequests then (true, pruned + [now]) else (false, pruned)
  }

  /** The largest number of times a limiter can hold: `maxRequests`, or none when it is not positive. */
  function Capacity(maxRequests: int): nat {
    if maxRequests < 0 then 0 else maxRequests
  }

  predicate Sorted(q: seq<int>) {
    forall i, j :: 0 <= i < j < |q| ==> q[i] <= q[j]
  }

  predicate NotAfter(q: seq<int>, now: int) {
    forall i :: 0 <= i < |q| ==> q[i] <= now
  }

  /** The largest time in a non-empty queue. */
  function Latest(q: seq<int>): (m: int)
    requires q != []
    ensures m in q && forall i :: 0 <= i < |q| ==> q[i] <= m
  {
    if |q| == 1 then q[0] else var m := Latest(q[1..]); if q[0] < m then m else q[0]
  }

  /**
   * A call admits iff the pruned queue has room; an admitted call records
   * exactly `now` at the back of the pruned queue, a rejected call records
   * nothing; the queue never grows beyond the capacity, and a limiter with
   * `maxRequests <= 0` admits nothing.
   */
  lemma AdmitSpec(q: seq<int>, now: int, maxRequests: int, window: int)
    requires |q| <= Capacity(maxRequests)
    ensures var (ok, q') := Admit(q, now, maxRequests, window);
      && (ok <==> |Prune(q, now, window)| < maxRequests)
      && (ok ==> q' == Prune(q, now, window) + [now])
      && (!ok ==> q' == Prune(q, now, window))
      && |q'| <= Capacity(maxRequests)
      && (maxRequests <= 0 ==> !ok && q' == [])
  {
  }

  /** Pruning at a time and then at a later time is pruning at the later time. */
  lemma {:induction false} PruneLater(q: seq<int>, t1: int, t2: int, window: int)
    requires t1 <= t2
    ensures Prune(Prune(q, t1, window), t2, window) == Prune(q, t2, window)
  {
    if q != [] && t1 - q[0] > window {
      PruneLater(q[1..], t1, t2, window);
    }
  }

  /**
   * With a clock that does not go backwards, a sorted queue stays sorted
   * and afterwards holds only times at most `window` old.
   */
  lemma AdmitKeepsWindow(q: seq<int>, now: int, maxRequests: int, window: int)
    requires window >= 0 && Sorted(q) && NotAfter(q, now)
    ensures var q' := Admit(q, now, maxRequests, window).1;
      Sorted(q') && forall i :: 0 <= i < |q'| ==> 0 <= now - q'[i] <= window
  {
    var p := Prune(q, now, window);
    PruneKeepsWindow(q, now, window);
    if |p| < maxRequests {
      AppendNow(p, now, window);
    }
  }

  lemma PruneKeepsWindow(q: seq<int>, now: int, window: int)
    requires Sorted(q) && NotAfter(q, now)
    ensures var p := Prune(q, now, window);
      Sorted(p) && forall i :: 0 <= i < |p| ==> 0 <= now - p[i] <= window
  {
    var p := Prune(q, now, window);
    var off := |q| - |p|;
    assert p == q[off..];
    forall i, j | 0 <= i < j < |p| ensures p[i] <= p[j] {
      assert p[i] == q[off + i] && p[j] == q[off + j];
    }
    forall i | 0 <= i < |p| ensures 0 <= now - p[i] <= window {
      assert p[i] == q[off + i] && p[0] == q[off];
      assert q[off] <= q[off + i];
    }
  }

  lemma AppendNow(p: seq<int>, now: int, window: int)
    requires window >= 0 && Sorted(p) && forall i :: 0 <= i < |p| ==> 0 <= now - p[i] <= window
    ensures Sorted(p + [now]) && forall i :: 0 <= i < |p + [now]| ==> 0 <= now - (p + [now])[i] <= window
  {
  }

  /** The times of the requests admitted so far, kept for proofs about a run of calls. */
  function Recent(s: seq<int>, now: int, window: int): (r: seq<int>)
    ensures |r| <= |s|
  {
    if s == [] then []
    else (if now - s[0] <= window then [s[0]] else []) + Recent(s[1..], now, window)
  }

  lemma {:induction false} RecentAppend(s: seq<int>, x: int, now: int, window: int)
    ensures Recent(s + [x], now, window)
      == Recent(s, now, window) + (if now - x <= window then [x] else [])
  {
    if s != [] {
      assert (s + [x])[1..] == s[1..] + [x];
      RecentAppend(s[1..], x, now, window);
    }
  }

  lemma {:induction false} RecentLater(s: seq<int>, t1: int, t2: int, window: int)
    requires t1 <= t2
    ensures Recent(Recent(s, t1, window), t2, window) == Recent(s, t2, window)
  {
    if s != [] {
      RecentLater(s[1..], t1, t2, window);
      var tail1 := Recent(s[1..], t1, window);
      if t1 - s[0] <= window {
        assert Recent(s, t1, window) == [s[0]] + tail1;
        assert ([s[0]] + tail1)[0] == s[0] && ([s[0]] + tail1)[1..] == tail1;
      } else {
        assert Recent(s, t1, window) == tail1;
        assert t2 - s[0] > window;
        assert Recent(s, t2, window) == Recent(s[1..], t2, window);
      }
    }
  }

  /** On a sorted queue, pruning the front keeps exactly the recent times. */
  lemma {:induction false} PruneIsRecent(q: seq<int>, now: int, window: int)
    requires Sorted(q)
    ensures Prune(q, now, window) == Recent(q, now, window)
  {
    if q != [] {
      SortedTail(q);
      if now - q[0] > window {
        PruneIsRecent(q[1..], now, window);
        assert Recent(q, now, window) == [] + Recent(q[1..], now, window);
      } else {
        forall i | 0 <= i < |q[1..]| ensures now - q[1..][i] <= window {
          assert q[1..][i] == q[i + 1] && q[0] <= q[i + 1];
        }
        AllRecent(q[1..], now, window);
        assert Recent(q, now, window) == [q[0]] + q[1..];
      }
    }
  }

  lemma {:induction false} AllRecent(q: seq<int>, now: int, window: int)
    requires forall i :: 0 <= i < |q| ==> now - q[i] <= window
    ensures Recent(q, now, window) == q
  {
    if q != [] {
      AllRecent(q[1..], now, window);
    }
  }

  lemma SortedTail(q: seq<int>)
    requires Sorted(q) && q != []
    ensures Sorted(q[1..])
    ensures forall i :: 0 <= i < |q| ==> q[0] <= q[i]
  {
    forall i, j | 0 <= i < j < |q[1..]| ensures q[1..][i] <= q[1..][j] {
      assert q[1..][i] == q[i + 1] && q[1..][j] == q[j + 1];
    }
  }

  lemma SortedAppend(s: seq<int>, x: int)
    requires Sorted(s) && NotAfter(s, x)
    ensures Sorted(s + [x]) && NotAfter(s + [x], x)
  {
    var s' := s + [x];
    forall i, j | 0 <= i < j < |s'| ensures s'[i] <= s'[j] {
      assert s'[i] == s[i];
      if j < |s| { assert s'[j] == s[j]; } else { assert s'[j] == x; }
    }
    forall i | 0 <= i < |s'| ensures s'[i] <= x {
      if i < |s| { assert s'[i] == s[i]; }
    }
  }

  predicate NonDecreasing(times: seq<int>) {
    forall i, j :: 0 <= i < j < |times| ==> times[i] <= times[j]
  }

  /**
   * A run of calls at the given times, starting from an empty limiter:
   * the queue the limiter holds and every time it ever admitted.
   */
  function Run(times: seq<int>, maxRequests: int, window: int): (seq<int>, seq<int>) {
    if times == [] then ([], [])
    else
      var (q, admitted) := Run(times[..|times| - 1], maxRequests, window);
      var now := times[|times| - 1];
      var (ok, q') := Admit(q, now, maxRequests, window);
      (q', if ok then admitted + [now] else admitted)
  }

  /**
   * The sliding-window guarantee. With a clock that does not go backwards
   * and a non-negative window, after every call the queue is exactly the
   * admitted times at most `window` old, so the number of admissions in
   * the trailing window `[now - window, now]` never exceeds `maxRequests`.
   */
  lemma {:induction false} RunWindow(times: seq<int>, maxRequests: int, window: int)
    requires window >= 0 && NonDecreasing(times) && times != []
    ensures var r := Run(times, maxRequests, window);
      var now := times[|times| - 1];
      && r.0 == Recent(r.1, now, window)
      && |Recent(r.1, now, window)| <= Capacity(maxRequests)
      && Sorted(r.1) && NotAfter(r.1, now)
  {
    var prefix := times[..|times| - 1];
    var now := times[|times| - 1];
    var r := Run(prefix, maxRequests, window);
    if prefix == [] {
      StepWindow(r.0, r.1, now, now, maxRequests, window);
    } else {
      assert NonDecreasing(prefix);
      RunWindow(prefix, maxRequests, window);
      StepWindow(r.0, r.1, prefix[|prefix| - 1], now, maxRequests, window);
    }
  }

  /** One call of a run keeps the relation between the queue and the admitted times. */
  lemma StepWindow(q: seq<int>, admitted: seq<int>, before: int, now: int, maxRequests: int, window: int)
    requires window >= 0 && before <= now
    requires q == Recent(admitted, before, window) && |q| <= Capacity(maxRequests)
    requires Sorted(admitted) && NotAfter(admitted, before)
    ensures var (ok, q') := Admit(q, now, maxRequests, window);
      var admitted' := if ok then admitted + [now] else admitted;
      && q' == Recent(admitted', now, window)
      && |q'| <= Capacity(maxRequests)
      && Sorted(admitted') && NotAfter(admitted', now)
  {
    var pruned := Prune(q, now, window);
    RecentSorted(admitted, before, window);
    PruneIsRecent(q, now, window);
    RecentLater(admitted, before, now, window);
    assert pruned == Recent(admitted, now, window);
    assert NotAfter(admitted, now);
    if |pruned| < maxRequests {
      RecentAppend(admitted, now, now, window);
      SortedAppend(admitted, now);
    }
  }

  /** Filtering keeps a sorted sequence sorted. */
  lemma {:induction false} RecentSorted(s: seq<int>, now: int, window: int)
    requires Sorted(s)
    ensures Sorted(Recent(s, now, window))
    ensures forall i :: 0 <= i < |Recent(s, now, window)| ==> s[0] <= Recent(s, now, window)[i]
  {
    if s != [] {
      SortedTail(s);
      var rest := Recent(s[1..], now, window);
      if s[1..] != [] {
        RecentSorted(s[1..], now, window);
        assert forall i :: 0 <= i < |rest| ==> s[0] <= s[1..][0] <= rest[i];
      }
      var r := Recent(s, now, window);
      if now - s[0] <= window {
        assert r == [s[0]] + rest;
        forall i, j | 0 <= i < j < |r| ensures r[i] <= r[j] {
          assert r[j] == rest[j - 1];
          if i > 0 { assert r[i] == rest[i - 1]; }
        }
      } else {
        assert r == rest;
      }
    }
  }

  class RateLimiter {
    const maxRequests: int
    const window: int
    /** The times of the admitted requests still inside the window, oldest first. */
    var requests: seq<int>

    constructor (maxRequests: int, window: int)
      ensures this.maxRequests == maxRequests && this.window == window
      ensures requests == []
    {
      this.maxRequests := maxRequests;
      this.window := window;
      requests := [];
    }

    /** `can_make_request` at time `now`. */
    method CanMakeRequest(now: int) returns (ok: bool)
      modifies this
      ensures ok == Admit(old(requests), now, maxRequests, window).0
      ensures requests == Admit(old(requests), now, maxRequests, window).1
    {
      while requests != [] && now - requests[0] > window
        invariant Prune(requests, now, window) == Prune(old(requests), now, window)
        decreases |requests|
      {
        requests := requests[1..];
      }
      if |requests| < maxRequests {
        requests := requests + [now];
        ok := true;
      } else {
        ok := false;
      }
    }

    /**
     * `wait_for_slot` starting at time `now`: retries once per tick until a
     * call admits. It returns the tick of that call, which recorded exactly
     * that tick; no earlier tick would have admitted.
     */
    method WaitForSlot(now: int) returns (admittedAt: int)
      requires maxRequests > 0
      modifies this
      ensures admittedAt >= now
      ensures Admit(old(requests), admittedAt, maxRequests, window) == (true, requests)
      ensures RejectedBetween(old(requests), now, admittedAt, maxRequests, window)
    {
      ghost var q0 := requests;
      ghost var deadline := if q0 == [] || Latest(q0) + window + 1 < now then now else Latest(q0) + window + 1;
      var t := now;
      var ok := CanMakeRequest(t);
      while !ok
        invariant now <= t <= deadline
        invariant ok == Admit(q0, t, maxRequests, window).0
        invariant requests == Admit(q0, t, maxRequests, window).1
        invariant RejectedBetween(q0, now, t, maxRequests, window)
        decreases deadline - t
      {
        RetryStep(q0, now, t, maxRequests, window);
        ghost var before := requests;
        t := t + 1;
        ok := CanMakeRequest(t);
        assert (ok, requests) == Admit(before, t, maxRequests, window);
      }
      assert (ok, requests) == Admit(q0, t, maxRequests, window);
      admittedAt := t;
    }
  }

  /** No call at a tick in `[from, to)` would have admitted on the queue `q`. */
  predicate RejectedBetween(q: seq<int>, from: int, to: int, maxRequests: int, window: int) {
    forall t :: from <= t < to ==> |Prune(q, t, window)| >= maxRequests
  }

  lemma RejectedExtend(q: seq<int>, from: int, to: int, maxRequests: int, window: int)
    requires RejectedBetween(q, from, to, maxRequests, window)
    requires |Prune(q, to, window)| >= maxRequests
    ensures RejectedBetween(q, from, to + 1, maxRequests, window)
  {
  }

  /**
   * A rejection means the queue was non-empty and its newest time is still
   * inside the window, so retrying cannot go on past that time plus the window.
   */
  lemma RetryDeadline(q0: seq<int>, t: int, maxRequests: int, window: int)
    requires maxRequests > 0 && |Prune(q0, t, window)| >= maxRequests
    ensures q0 != [] && Latest(q0) + window + 1 > t
  {
    var p := Prune(q0, t, window);
    var k := |q0| - |p|;
    assert p != [] && t - p[0] <= window;
    assert p[0] == q0[k];
    assert q0[k] <= Latest(q0);
  }

  /** What one more turn of the retry loop relies on. */
  lemma RetryStep(q0: seq<int>, from: int, t: int, maxRequests: int, window: int)
    requires maxRequests > 0 && !Admit(q0, t, maxRequests, window).0
    requires RejectedBetween(q0, from, t, maxRequests, window)
    ensures q0 != [] && Latest(q0) + window + 1 > t
    ensures Admit(Admit(q0, t, maxRequests, window).1, t + 1, maxRequests, window)
      == Admit(q0, t + 1, maxRequests, window)
    ensures RejectedBetween(q0, from, t + 1, maxRequests, window)
  {
    RetryDeadline(q0, t, maxRequests, window);
    RejectedExtend(q0, from, t, maxRequests, window);
    RetryAdmit(q0, t, t + 1, maxRequests, window);
  }

  /** A retry at a later tick acts on the earlier pruned queue as on the original one. */
  lemma RetryAdmit(q0: seq<int>, t: int, later: int, maxRequests: int, window: int)
    requires t <= later
    ensures Admit(Prune(q0, t, window), later, maxRequests, window)
      == Admit(q0, later, maxRequests, window)
  {
    PruneLater(q0, t, later, window);
  }
}
