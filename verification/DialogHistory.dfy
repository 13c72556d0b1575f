/** The bounded log of past states, and the queries on it. */
module DialogHistory {

  const HISTORY_CAP: nat := 8

  datatype HistoryEntry<S> = HistoryEntry(state: S, reason: string, time: real)

  function LastN<T>(s: seq<T>, n: nat): seq<T> {
    if |s| <= n then s else s[|s| - n..]
  }

  /** Push the state that is being left and drop the oldest entries beyond the cap. */
  function Pushed<S>(h: seq<HistoryEntry<S>>, left: S, reason: string, now: real): seq<HistoryEntry<S>> {
    LastN(h + [HistoryEntry(left, reason, now)], HISTORY_CAP)
  }

  ghost predicate NoRepeats<S>(h: seq<HistoryEntry<S>>, current: S) {
    && (forall i, j :: 0 <= i < j < |h| && j == i + 1 ==> h[i].state != h[j].state)
    && (h != [] ==> h[|h|-1].state != current)
  }

  ghost predicate SortedByTime<S>(h: seq<HistoryEntry<S>>) {
    forall i, j :: 0 <= i < j < |h| ==> h[i].time <= h[j].time
  }

  /** At most eight entries, oldest first, none later than `now`, no state twice in a row. */
  ghost predicate HistorySound<S>(h: seq<HistoryEntry<S>>, current: S, now: real) {
    && |h| <= HISTORY_CAP
    && SortedByTime(h)
    && (forall i :: 0 <= i < |h| ==> h[i].time <= now)
    && NoRepeats(h, current)
  }

  lemma PushedSound<S>(h: seq<HistoryEntry<S>>, left: S, reason: string, next: S, now: real)
    requires HistorySound(h, left, now) && next != left
    ensures HistorySound(Pushed(h, left, reason, now), next, now)
  {
    var grown := h + [HistoryEntry(left, reason, now)];
    assert forall i :: 0 <= i < |h| ==> grown[i] == h[i];
    assert SortedByTime(grown) && NoRepeats(grown, next);
    if |grown| > HISTORY_CAP {
      TailSound(grown, next, |grown| - HISTORY_CAP, now);
    }
  }

  lemma TailSound<S>(h: seq<HistoryEntry<S>>, current: S, n: nat, now: real)
    requires SortedByTime(h) && NoRepeats(h, current) && n < |h|
    requires forall i :: 0 <= i < |h| ==> h[i].time <= now
    ensures SortedByTime(h[n..]) && NoRepeats(h[n..], current)
    ensures forall i :: 0 <= i < |h| - n ==> h[n..][i].time <= now
  {
    forall i, j | 0 <= i < j < |h| - n && j == i + 1
      ensures h[n..][i].state != h[n..][j].state
    {
      assert h[n+i].state != h[n+j].state;
    }
  }

  /** `push_back`, then `pop_front` while the log is over the cap. */
  method PushHistory<S>(h: seq<HistoryEntry<S>>, left: S, reason: string, now: real)
    returns (log: seq<HistoryEntry<S>>)
    ensures log == Pushed(h, left, reason, now)
  {
    log := h + [HistoryEntry(left, reason, now)];
    while |log| > HISTORY_CAP
      invariant LastN(log, HISTORY_CAP) == Pushed(h, left, reason, now)
    {
      log := log[1..];
    }
  }

  predicate InWindow<S(==)>(h: HistoryEntry<S>, s: S, maxAge: real, now: real) {
    h.state == s && now - h.time <= maxAge
  }

  /** What `was_recently_in` is documented to mean: in the state now, or inside the window. */
  predicate RecentlyIn<S(==)>(h: seq<HistoryEntry<S>>, current: S, s: S, maxAge: real, now: real) {
    current == s || exists i :: 0 <= i < |h| && InWindow(h[i], s, maxAge, now)
  }

  /** The scan from the newest entry stops at the first that is too old; on a sorted log that is safe. */
  method WasRecentlyIn<S(==)>(h: seq<HistoryEntry<S>>, current: S, s: S, maxAge: real, now: real)
    returns (found: bool)
    requires SortedByTime(h)
    ensures found <==> RecentlyIn(h, current, s, maxAge, now)
  {
    if current == s {
      return true;
    }
    var i := |h|;
    while i > 0
      invariant 0 <= i <= |h|
      invariant forall k :: i <= k < |h| ==> !InWindow(h[k], s, maxAge, now)
    {
      i := i - 1;
      if now - h[i].time > maxAge {
        assert forall k :: 0 <= k < i ==> h[k].time <= h[i].time;
        return false;
      }
      if h[i].state == s {
        assert InWindow(h[i], s, maxAge, now);
        return true;
      }
    }
    return false;
  }

  /** A landing that no departure has followed; `landing` and `departure` classify states. */
  predicate LandedSince<S>(h: seq<HistoryEntry<S>>, current: S, landing: S -> bool, departure: S -> bool) {
    landing(current) ||
    exists i :: 0 <= i < |h| && landing(h[i].state)
             && forall k :: i < k < |h| ==> !departure(h[k].state)
  }

  method AtAirportAfterLanding<S>(h: seq<HistoryEntry<S>>, current: S, landing: S -> bool, departure: S -> bool,
                                  onGround: bool)
    returns (yes: bool)
    requires forall s :: !(landing(s) && departure(s))
    ensures yes <==> onGround && LandedSince(h, current, landing, departure)
  {
    if !onGround {
      return false;
    }
    if landing(current) {
      return true;
    }
    var i := |h|;
    while i > 0
      invariant 0 <= i <= |h|
      invariant forall k :: i <= k < |h| ==> !departure(h[k].state) && !landing(h[k].state)
    {
      i := i - 1;
      if departure(h[i].state) {
        return false;
      }
      if landing(h[i].state) {
        return true;
      }
    }
    return false;
  }
}
