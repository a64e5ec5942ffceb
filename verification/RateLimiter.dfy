/** The rolling window that limits the requests per minute of a profile. */
module RateLimiter {
  import opened Domain

  const WINDOW: real := 60.0

  predicate Sorted(times: seq<real>) {
    forall i, j :: 0 <= i < j < |times| ==> times[i] <= times[j]
  }

  /** Requests that are `rpm` places apart are at least a window apart. */
  predicate Spaced(times: seq<real>, rpm: nat) {
    forall i :: 0 <= i < |times| - rpm ==> times[i + rpm] - times[i] >= WINDOW
  }

  /** The times still inside the window that ends now. */
  function Recent(times: seq<real>, now: real): seq<real> {
    if times == [] then []
    else Recent(times[..|times| - 1], now) + (if now - times[|times| - 1] < WINDOW then [times[|times| - 1]] else [])
  }

  /** The first `k` times are out of the window that ends now, the others are in it. */
  ghost predicate SplitAt(times: seq<real>, now: real, k: nat) {
    && k <= |times|
    && (forall i :: 0 <= i < k ==> now - times[i] >= WINDOW)
    && (forall i :: k <= i < |times| ==> now - times[i] < WINDOW)
  }

  lemma {:induction false} NoneRecent(times: seq<real>, now: real)
    requires SplitAt(times, now, |times|)
    ensures Recent(times, now) == []
  {
    if times != [] {
      NoneRecent(times[..|times| - 1], now);
    }
  }

  lemma {:induction false} SplitGivesRecent(times: seq<real>, now: real, k: nat)
    requires SplitAt(times, now, k)
    ensures Recent(times, now) == times[k..]
  {
    if k == |times| {
      NoneRecent(times, now);
    } else {
      var front, last := times[..|times| - 1], times[|times| - 1];
      SplitGivesRecent(front, now, k);
      assert times[k..] == front[k..] + [last];
    }
  }

  /** In a sorted history the recent times are its end. */
  lemma {:induction false} SortedSplits(times: seq<real>, now: real) returns (k: nat)
    requires Sorted(times)
    ensures SplitAt(times, now, k)
  {
    k := |times|;
    while k > 0 && now - times[k - 1] < WINDOW
      invariant k <= |times| && forall i :: k <= i < |times| ==> now - times[i] < WINDOW
    {
      k := k - 1;
    }
    forall i | 0 <= i < k ensures now - times[i] >= WINDOW {
      assert i < k - 1 ==> times[i] <= times[k - 1];
    }
  }

  /** What the limiter keeps of its history: everything recent, as of the last time the clock was read. */
  ghost predicate Keeps(history: seq<real>, kept: seq<real>, clock: real, rpm: nat) {
    && rpm >= 1 && Sorted(history) && Spaced(history, rpm)
    && (forall i :: 0 <= i < |history| ==> history[i] <= clock)
    && |kept| <= |history| && |kept| <= rpm && kept == history[|history| - |kept|..]
    && (forall i :: 0 <= i < |history| - |kept| ==> clock - history[i] >= WINDOW)
  }

  /** Pruning again, later: what was dropped before need not be looked at. */
  lemma {:induction false} Prune(history: seq<real>, kept: seq<real>, clock: real, rpm: nat, now: real) returns (k: nat)
    requires Keeps(history, kept, clock, rpm) && now >= clock
    ensures SplitAt(history, now, k) && |history| - |kept| <= k
    ensures Recent(kept, now) == Recent(history, now) == history[k..]
    ensures Keeps(history, Recent(kept, now), now, rpm)
  {
    k := SortedSplits(history, now);
    var d := |history| - |kept|;
    OldStayOld(history, clock, now, d, k);
    SplitGivesRecent(history, now, k);
    assert SplitAt(kept, now, k - d);
    SplitGivesRecent(kept, now, k - d);
    assert kept[k - d..] == history[k..];
    PrunedKeeps(history, kept, clock, rpm, now, k);
  }

  lemma {:induction false} PrunedKeeps(history: seq<real>, kept: seq<real>, clock: real, rpm: nat, now: real, k: nat)
    requires Keeps(history, kept, clock, rpm) && now >= clock && SplitAt(history, now, k) && |history| - |kept| <= k
    ensures Keeps(history, history[k..], now, rpm)
  {
    assert |history| - |history[k..]| == k;
  }

  lemma {:induction false} OldStayOld(history: seq<real>, clock: real, now: real, d: nat, k: nat)
    requires SplitAt(history, now, k) && now >= clock && d <= |history|
    requires forall i :: 0 <= i < d ==> clock - history[i] >= WINDOW
    ensures d <= k
  {
    assert k < |history| ==> now - history[k] < WINDOW;
  }

  class ModelLimiter {
    const rpm: nat
    var requestTimes: seq<real>
    /** Every reservation ever made, and the last time the clock was read. */
    ghost var history: seq<real>
    ghost var clock: real

    ghost predicate Valid()
      reads this
    {
      Keeps(history, requestTimes, clock, rpm)
    }

    constructor (requestsPerMinute: int, now: real)
      ensures Valid() && history == [] && rpm == Max(1, requestsPerMinute) && clock == now
    {
      rpm := Max(1, requestsPerMinute);
      requestTimes, history, clock := [], [], now;
    }

    /**
     * One pass of the reservation loop, under the lock: reserves a slot, or tells how long to sleep.
     * Any number of callers may take turns; the clock only has to be monotone.
     */
    method TryReserve(now: real) returns (wait: Option<real>)
      requires Valid() && now >= clock
      modifies this
      ensures Valid() && clock == now
      ensures wait.None? <==> |Recent(old(history), now)| < rpm
      ensures wait.None? ==> history == old(history) + [now]
      ensures wait.Some? ==> history == old(history) && wait.value > 0.0
      ensures wait.Some? ==> |Recent(history, now + wait.value)| < rpm
    {
      ghost var k := Prune(history, requestTimes, clock, rpm, now);
      requestTimes := Recent(requestTimes, now);
      clock := now;
      if |requestTimes| < rpm {
        Reserve(history, requestTimes, rpm, now);
        requestTimes := requestTimes + [now];
        history := history + [now];
        return None;
      }
      assert requestTimes[0] == history[k];
      var pause := requestTimes[0] + WINDOW - now;
      OneWaitSuffices(history, rpm, now, k, pause);
      return Some(pause);
    }

    /** Whatever reservations were made: no window of a minute, however long ago, holds more than `rpm` of them. */
    lemma {:induction false} WindowsHold(x: real)
      requires Valid()
      ensures InWindow(history, x) <= rpm
    {
      EveryWindowHolds(history, rpm, x);
    }
  }

  lemma {:induction false} Reserve(history: seq<real>, kept: seq<real>, rpm: nat, now: real)
    requires Keeps(history, kept, now, rpm) && |kept| < rpm
    ensures Keeps(history + [now], kept + [now], now, rpm)
  {
    AppendSpaced(history, rpm, now, |history| - |kept|);
    var all, more := history + [now], kept + [now];
    assert more == all[|all| - |more|..];
  }

  /** Reserving while fewer than `rpm` times are recent keeps requests apart. */
  lemma {:induction false} AppendSpaced(history: seq<real>, rpm: nat, now: real, k: nat)
    requires Sorted(history) && Spaced(history, rpm) && (forall i :: 0 <= i < |history| ==> history[i] <= now)
    requires k <= |history| && |history| - k < rpm
    requires forall i :: 0 <= i < k ==> now - history[i] >= WINDOW
    ensures Sorted(history + [now]) && Spaced(history + [now], rpm)
  {
    var all := history + [now];
    forall i | 0 <= i < |all| - rpm ensures all[i + rpm] - all[i] >= WINDOW {
      if i + rpm < |history| {
        assert history[i + rpm] - history[i] >= WINDOW;
      }
    }
  }

  /** Without competitors, after the computed sleep a slot is free. */
  lemma {:induction false} OneWaitSuffices(history: seq<real>, rpm: nat, now: real, k: nat, wait: real)
    requires Sorted(history) && SplitAt(history, now, k) && k < |history| && |history| - k <= rpm
    requires wait == history[k] + WINDOW - now
    ensures wait > 0.0 && |Recent(history, now + wait)| < rpm
  {
    var later := now + wait;
    var m := SortedSplits(history, later);
    SplitGivesRecent(history, later, m);
    OldStayOld(history, later, later, k, m);
    assert later - history[k] >= WINDOW;
    assert m != k;
  }

  // What spacing means: no window of a minute holds more than `rpm` requests.

  /** How many times are before `x`. */
  function Before(times: seq<real>, x: real): nat {
    if times == [] then 0 else Before(times[..|times| - 1], x) + (if times[|times| - 1] < x then 1 else 0)
  }

  /** How many times are in the half-open window that starts at `x`. */
  function InWindow(times: seq<real>, x: real): nat {
    if times == [] then 0
    else InWindow(times[..|times| - 1], x) + (if x <= times[|times| - 1] < x + 60.0 then 1 else 0)
  }

  lemma {:induction false} WindowIsDifference(times: seq<real>, x: real)
    ensures InWindow(times, x) == Before(times, x + WINDOW) - Before(times, x)
  {
    if times != [] {
      WindowIsDifference(times[..|times| - 1], x);
    }
  }

  /** In a sorted list the times before `x` come first. */
  lemma {:induction false} BeforeIsPrefix(times: seq<real>, x: real)
    requires Sorted(times)
    ensures Before(times, x) <= |times|
    ensures forall i :: 0 <= i < |times| ==> (times[i] < x <==> i < Before(times, x))
  {
    if times != [] {
      var front, last := times[..|times| - 1], times[|times| - 1];
      BeforeIsPrefix(front, x);
      assert forall i :: 0 <= i < |front| ==> front[i] == times[i] && times[i] <= times[|times| - 1];
    }
  }

  /** Over the whole history, however long ago and however pruned, every window holds at most `rpm` requests. */
  lemma {:induction false} EveryWindowHolds(times: seq<real>, rpm: nat, x: real)
    requires Sorted(times) && Spaced(times, rpm)
    ensures InWindow(times, x) <= rpm
  {
    WindowIsDifference(times, x);
    BeforeIsPrefix(times, x);
    BeforeIsPrefix(times, x + WINDOW);
    var first, end := Before(times, x), Before(times, x + WINDOW);
    assert first + rpm < |times| ==> times[first + rpm] - times[first] >= WINDOW;
  }
}
