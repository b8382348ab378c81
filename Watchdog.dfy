/**
 * The offline watchdog both polling services share. A reply stamps the time
 * it arrived; every poll tick takes the link offline when it was online and
 * the last reply is more than ten seconds old. A tick never brings the link
 * back online; only a reply does. Time is whole milliseconds, and "no reply
 * yet" (the `DateTime.MinValue` start value) is `None`.
 */
module Watchdog {
  import opened Wrappers

  /** Ten seconds of silence are tolerated; the eleventh takes the link offline. */
  const MaxOfflineMs: int := 10000

  /** Whether the link has been silent too long at `now`. */
  predicate Silent(lastReceived: Option<int>, now: int) {
    lastReceived.None? || now - lastReceived.value > MaxOfflineMs
  }

  /** The online flag after one poll tick at `now`. */
  function AfterTick(isOnline: bool, lastReceived: Option<int>, now: int): (online: bool)
    ensures online ==> isOnline
    ensures online <==> isOnline && lastReceived.Some? && now <= lastReceived.value + MaxOfflineMs
  {
    isOnline && !Silent(lastReceived, now)
  }

  /** The online flag after a run of poll ticks with no reply in between. */
  function AfterTicks(isOnline: bool, lastReceived: Option<int>, ticks: seq<int>): bool
  {
    if ticks == [] then isOnline
    else AfterTicks(AfterTick(isOnline, lastReceived, ticks[0]), lastReceived, ticks[1..])
  }

  /**
   * After a reply at `t`, a run of ticks leaves the link online exactly when
   * every tick comes at most ten seconds after `t`.
   */
  lemma {:induction false} OnlineThroughWindow(t: int, ticks: seq<int>)
    ensures AfterTicks(true, Some(t), ticks) <==> forall i :: 0 <= i < |ticks| ==> ticks[i] <= t + MaxOfflineMs
  {
    if ticks != [] {
      if ticks[0] <= t + MaxOfflineMs {
        OnlineThroughWindow(t, ticks[1..]);
        assert forall i :: 1 <= i < |ticks| ==> ticks[i] == ticks[1..][i - 1];
      } else {
        StaysOffline(Some(t), ticks[1..]);
      }
    }
  }

  /** Once offline, ticks alone never bring the link back. */
  lemma {:induction false} StaysOffline(lastReceived: Option<int>, ticks: seq<int>)
    ensures !AfterTicks(false, lastReceived, ticks)
  {
    if ticks != [] {
      StaysOffline(lastReceived, ticks[1..]);
    }
  }
}
