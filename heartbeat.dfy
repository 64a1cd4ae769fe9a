/**
 * The connection-health tracker over time: what a heartbeat's watchdog does when it fires,
 * and how heartbeats arriving in time keep the session Online.
 */
module Heartbeat {
  import opened Wrappers
  import opened SessionState

  /** Once the session is Offline, no watchdog changes anything. */
  lemma OfflineAbsorbsWatchdog(s: State, now: int)
    requires s.connectionState == Offline
    ensures Step(s, Watchdog(now)) == s
  {
  }

  /** Firing the same watchdog twice in a row has the effect of firing it once. */
  lemma WatchdogIdempotent(s: State, now: int)
    ensures Step(Step(s, Watchdog(now)), Watchdog(now)) == Step(s, Watchdog(now))
  {
  }

  /** A disconnect or failed connect cannot be undone by a watchdog still pending. */
  lemma TransportLossOutlivesWatchdog(s: State, e: Event, now: int)
    requires e == Disconnect || e == ConnectFailed
    ensures Step(Step(s, e), Watchdog(now)).connectionState == Offline
  {
  }

  /** Events other than heartbeats leave the recorded heartbeat time as it was. */
  lemma {:induction false} NoPingKeepsLastPing(s: State, evs: seq<Event>)
    requires forall i :: 0 <= i < |evs| ==> !evs[i].Ping?
    ensures Run(s, evs).lastRecordedPingAt == s.lastRecordedPingAt
    decreases |evs|
  {
    if evs != [] {
      NoPingKeepsLastPing(s, evs[..|evs| - 1]);
    }
  }

  /**
   * A watchdog whose heartbeat was not superseded goes Offline: after a heartbeat at `t`
   * (a non-zero clock reading) and any events that are not heartbeats, the watchdog firing
   * WatchdogDelayMs later, or any time after that if its timer is late, sets the session Offline.
   */
  lemma StaleWatchdogGoesOffline(s: State, t: int, mid: seq<Event>, now: int)
    requires t != 0
    requires now >= t + WatchdogDelayMs
    requires forall i :: 0 <= i < |mid| ==> !mid[i].Ping?
    ensures Run(s, [Ping(t)] + mid + [Watchdog(now)]).connectionState == Offline
  {
    var armed := Run(s, [Ping(t)]);
    assert [Ping(t)][..0] == [];
    RunAppend(s, [Ping(t)], mid);
    NoPingKeepsLastPing(armed, mid);
    assert ([Ping(t)] + mid + [Watchdog(now)])[..|mid| + 1] == [Ping(t)] + mid;
  }

  /**
   * A watchdog superseded by a newer heartbeat is a no-op: if after the heartbeat at `t`
   * another one arrived at a later time `t2`, followed only by events that are not
   * heartbeats, the watchdog of `t` changes nothing when it fires.
   */
  lemma SupersededWatchdogIsNoOp(s: State, t: int, t2: int, mid1: seq<Event>, mid2: seq<Event>)
    requires t < t2
    requires forall i :: 0 <= i < |mid2| ==> !mid2[i].Ping?
    ensures
      var before := [Ping(t)] + mid1 + [Ping(t2)] + mid2;
      Run(s, before + [Watchdog(t + WatchdogDelayMs)]) == Run(s, before)
  {
    var upTo := [Ping(t)] + mid1 + [Ping(t2)];
    var before := upTo + mid2;
    assert upTo[..|upTo| - 1] == [Ping(t)] + mid1;
    RunAppend(s, upTo, mid2);
    NoPingKeepsLastPing(Run(s, upTo), mid2);
    assert Run(s, before).lastRecordedPingAt == Some(t2);
    assert (before + [Watchdog(t + WatchdogDelayMs)])[..|before|] == before;
  }

  /** The clock reading an event carries, for the heartbeat events that carry one. */
  function Time(e: Event): int {
    if e.Ping? || e.Watchdog? then e.at else 0
  }

  /** Every event is a heartbeat or a watchdog. */
  ghost predicate OnlyHeartbeats(evs: seq<Event>) {
    forall i :: 0 <= i < |evs| ==> evs[i].Ping? || evs[i].Watchdog?
  }

  /** Events come in the order of the clock readings they carry. */
  ghost predicate InTimeOrder(evs: seq<Event>) {
    forall i, j :: 0 <= i < j < |evs| ==> Time(evs[i]) <= Time(evs[j])
  }

  /** Every watchdog fires WatchdogDelayMs after a heartbeat that came before it. */
  ghost predicate WatchdogsArmed(evs: seq<Event>) {
    forall j :: 0 <= j < |evs| && evs[j].Watchdog? ==>
      exists i :: 0 <= i < j && evs[i] == Ping(evs[j].at - WatchdogDelayMs)
  }

  /**
   * Every heartbeat whose watchdog fires in `evs` was followed by a newer heartbeat at most
   * StaleAfterMs later.
   */
  ghost predicate NextPingInTime(evs: seq<Event>) {
    forall j :: 0 <= j < |evs| && evs[j].Watchdog? ==>
      exists k :: 0 <= k < |evs| && evs[k].Ping? && NewerWithin(evs[j].at - WatchdogDelayMs, evs[k].at)
  }

  /** A heartbeat at `t2` is newer than one at `t`, and at most StaleAfterMs newer. */
  predicate NewerWithin(t: int, t2: int) {
    t < t2 <= t + StaleAfterMs
  }

  /**
   * A heartbeat timeline: heartbeats and the watchdogs they arm, in the order real time
   * delivers them, where every heartbeat whose watchdog fires within the timeline was
   * followed by a newer heartbeat at most StaleAfterMs later.
   */
  ghost predicate HeartbeatTimeline(evs: seq<Event>) {
    OnlyHeartbeats(evs) && InTimeOrder(evs) && WatchdogsArmed(evs) && NextPingInTime(evs)
  }

  /** Handling one more event of a sequence is one more step. */
  lemma RunPrefixStep(s: State, evs: seq<Event>, n: nat)
    requires 1 <= n <= |evs|
    ensures Run(s, evs[..n]) == Step(Run(s, evs[..n - 1]), evs[n - 1])
  {
    assert evs[..n][..n - 1] == evs[..n - 1];
  }

  /**
   * At the moment watchdog `n - 1` fires, a heartbeat newer than the one that armed it has
   * already been handled, so the latest heartbeat `i` before it is newer too.
   */
  lemma WatchdogFindsNewerPing(evs: seq<Event>, n: nat, i: nat)
    requires HeartbeatTimeline(evs)
    requires 1 <= n <= |evs| && evs[n - 1].Watchdog?
    requires i < n - 1 && evs[i].Ping?
    requires forall k :: i < k < n - 1 ==> evs[k].Watchdog?
    ensures evs[n - 1].at - WatchdogDelayMs < evs[i].at
  {
    var w := evs[n - 1].at;
    var k :| 0 <= k < |evs| && evs[k].Ping? && NewerWithin(w - WatchdogDelayMs, evs[k].at);
    assert k < n - 1;
    assert k <= i;
    if k < i {
      assert Time(evs[k]) <= Time(evs[i]);
    }
  }

  /**
   * The invariant of a heartbeat timeline: after any non-empty prefix the session is Online
   * and has recorded the time of the latest heartbeat, at index `i`, which only watchdogs follow.
   */
  lemma {:induction false} TimelinePrefix(s: State, evs: seq<Event>, n: nat) returns (i: nat)
    requires HeartbeatTimeline(evs)
    requires 1 <= n <= |evs|
    ensures i < n && evs[i].Ping?
    ensures forall k :: i < k < n ==> evs[k].Watchdog?
    ensures Run(s, evs[..n]).connectionState == Online
    ensures Run(s, evs[..n]).lastRecordedPingAt == Some(evs[i].at)
  {
    RunPrefixStep(s, evs, n);
    var e := evs[n - 1];
    if n == 1 {
      FirstIsPing(evs);
      i := 0;
    } else if e.Ping? {
      i := n - 1;
    } else {
      i := TimelinePrefix(s, evs, n - 1);
      WatchdogFindsNewerPing(evs, n, i);
      WatchdogOfOlderPing(Run(s, evs[..n - 1]), evs[i].at, e.at);
    }
  }

  /** No watchdog can come first: its heartbeat must precede it. */
  lemma FirstIsPing(evs: seq<Event>)
    requires OnlyHeartbeats(evs) && WatchdogsArmed(evs)
    requires evs != []
    ensures evs[0].Ping?
  {
  }

  /** A watchdog firing less than WatchdogDelayMs after the recorded heartbeat changes nothing. */
  lemma WatchdogOfOlderPing(r: State, last: int, now: int)
    requires r.lastRecordedPingAt == Some(last)
    requires now - WatchdogDelayMs < last
    ensures Step(r, Watchdog(now)) == r
  {
  }

  /**
   * Heartbeats that keep arriving within StaleAfterMs of each other keep the session Online:
   * after every non-empty prefix of a heartbeat timeline, whatever the state before, no
   * watchdog has taken it Offline.
   */
  lemma HeartbeatsKeepOnline(s: State, evs: seq<Event>)
    requires HeartbeatTimeline(evs)
    ensures forall n :: 1 <= n <= |evs| ==> Run(s, evs[..n]).connectionState == Online
  {
    forall n | 1 <= n <= |evs|
      ensures Run(s, evs[..n]).connectionState == Online
    {
      var _ := TimelinePrefix(s, evs, n);
    }
  }
}
