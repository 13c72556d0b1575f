/** Traffic advisories and their cooldowns. */
module TrafficAdvisor {
  import opened Options

  /** A target as the user sees it. `closing` stands for a positive closure rate or converging tracks,
      `crossing` for a path that meets the cone ahead of the user. */
  datatype Target = Target(id: nat, distance: real, altDiff: real, clock: real, agl: real, closing: bool,
                           movingOnSurface: bool, crossing: bool)

  datatype User = User(onGround: bool, taxiing: bool, inContact: bool)

  /** When advisories were issued and acknowledged; `last` is the time of the latest one. */
  datatype History = History(issued: map<nat, real>, acked: map<nat, real>, last: real)

  datatype Advisory = Advisory(id: nat, airborne: bool)

  const NO_HISTORY := History(map[], map[], -1000000000.0)

  // ── Which targets qualify ───────────────────────────────────────────────────

  predicate InForwardArc(clock: real) {
    9.0 <= clock <= 12.0 || 1.0 <= clock <= 3.0
  }

  function Magnitude(x: real): real { if x < 0.0 then -x else x }

  predicate Qualifies(t: Target, u: User) {
    && 2.0 <= t.distance <= 8.0 && Magnitude(t.altDiff) <= 1500.0 && InForwardArc(t.clock)
    && u.onGround == (t.agl <= 200.0) && t.closing
  }

  predicate QualifiesOnGround(t: Target) {
    t.distance < 0.3 && t.movingOnSurface && t.crossing
  }

  /** The stamp of `id`, if any, is at least `wait` old. */
  predicate Rested(stamps: map<nat, real>, id: nat, now: real, wait: real) {
    id in stamps ==> now - stamps[id] >= wait
  }

  predicate GroundAdmissible(h: History, t: Target, now: real) {
    QualifiesOnGround(t) && Rested(h.issued, t.id, now, 30.0)
  }

  predicate AirAdmissible(h: History, t: Target, u: User, now: real) {
    Qualifies(t, u) && Rested(h.issued, t.id, now, 60.0) && Rested(h.acked, t.id, now, 300.0)
  }

  predicate GroundOpen(h: History, u: User, now: real) {
    u.taxiing && now - h.last >= 15.0
  }

  predicate AirOpen(h: History, u: User, now: real) {
    u.inContact && now - h.last >= 20.0
  }

  function FirstIndex(ts: seq<Target>, ok: Target -> bool, i: nat): (k: nat)
    requires i <= |ts|
    ensures i <= k <= |ts|
    ensures forall j :: i <= j < k ==> !ok(ts[j])
    ensures k < |ts| ==> ok(ts[k])
    decreases |ts| - i
  {
    if i == |ts| || ok(ts[i]) then i else FirstIndex(ts, ok, i + 1)
  }

  function GroundTest(h: History, now: real): Target -> bool {
    t => GroundAdmissible(h, t, now)
  }

  function AirTest(h: History, u: User, now: real): Target -> bool {
    t => AirAdmissible(h, t, u, now)
  }

  /** The first admissible ground conflict, if the ground path is open. */
  function GroundChoice(h: History, ts: seq<Target>, u: User, now: real): nat {
    if GroundOpen(h, u, now) then FirstIndex(ts, GroundTest(h, now), 0) else |ts|
  }

  function AirChoice(h: History, ts: seq<Target>, u: User, now: real): nat {
    if AirOpen(h, u, now) then FirstIndex(ts, AirTest(h, u, now), 0) else |ts|
  }

  /** A ground conflict first, then airborne traffic. */
  function Evaluated(h: History, ts: seq<Target>, u: User, now: real): Option<Advisory> {
    var g, a := GroundChoice(h, ts, u, now), AirChoice(h, ts, u, now);
    if g < |ts| then Some(Advisory(ts[g].id, false))
    else if a < |ts| then Some(Advisory(ts[a].id, true))
    else None
  }

  function Stamped(h: History, id: nat, now: real): History {
    h.(issued := h.issued[id := now], last := now)
  }

  function Acknowledged(h: History, id: nat, now: real): History {
    h.(acked := h.acked[id := now])
  }

  // ── The object ──────────────────────────────────────────────────────────────

  class AdvisoryHistory {
    var issued: map<nat, real>
    var acked: map<nat, real>
    var last: real

    function View(): History
      reads this
    {
      History(issued, acked, last)
    }

    constructor ()
      ensures View() == NO_HISTORY
    {
      issued, acked, last := map[], map[], -1000000000.0;
    }

    method EvaluateGroundConflict(ts: seq<Target>, u: User, now: real) returns (r: Option<Advisory>)
      ensures var g := GroundChoice(View(), ts, u, now);
              r == if g < |ts| then Some(Advisory(ts[g].id, false)) else None
    {
      if !u.taxiing || now - last < 15.0 {
        return None;
      }
      ghost var ok := GroundTest(View(), now);
      for i := 0 to |ts|
        invariant FirstIndex(ts, ok, 0) == FirstIndex(ts, ok, i)
      {
        var t := ts[i];
        if !QualifiesOnGround(t) {
          continue;
        }
        if t.id in issued && now - issued[t.id] < 30.0 {
          continue;
        }
        return Some(Advisory(t.id, false));
      }
      r := None;
    }

    method Evaluate(ts: seq<Target>, u: User, now: real) returns (r: Option<Advisory>)
      ensures r == Evaluated(View(), ts, u, now)
    {
      r := EvaluateGroundConflict(ts, u, now);
      if r.Some? {
        return;
      }
      if !u.inContact || now - last < 20.0 {
        return;
      }
      ghost var ok := AirTest(View(), u, now);
      for i := 0 to |ts|
        invariant FirstIndex(ts, ok, 0) == FirstIndex(ts, ok, i)
      {
        var t := ts[i];
        if !Qualifies(t, u) {
          continue;
        }
        if t.id in issued && now - issued[t.id] < 60.0 {
          continue;
        }
        if t.id in acked && now - acked[t.id] < 300.0 {
          continue;
        }
        return Some(Advisory(t.id, true));
      }
    }

    method MarkEmitted(id: nat, now: real)
      modifies `issued, `last
      ensures View() == Stamped(old(View()), id, now)
    {
      issued := issued[id := now];
      last := now;
    }

    method MarkAcknowledgedVisual(id: nat, now: real)
      modifies `acked
      ensures View() == Acknowledged(old(View()), id, now)
    {
      acked := acked[id := now];
    }
  }

  // ── The choice ──────────────────────────────────────────────────────────────

  predicate SortedByDistance(ts: seq<Target>) {
    forall i, j :: 0 <= i < j < |ts| ==> ts[i].distance <= ts[j].distance
  }

  /** Target `k` is admissible, and no admissible one is nearer. */
  predicate Nearest(ts: seq<Target>, ok: Target -> bool, k: nat) {
    k < |ts| && ok(ts[k]) && forall t :: t in ts && ok(t) ==> ts[k].distance <= t.distance
  }

  /** Something can be said of `t`. */
  predicate Speakable(h: History, t: Target, u: User, now: real) {
    (GroundOpen(h, u, now) && GroundAdmissible(h, t, now)) || (AirOpen(h, u, now) && AirAdmissible(h, t, u, now))
  }

  /** In the branch that fires, the target is the nearest admissible one; nothing is said only when none is. */
  lemma NearestIsChosen(h: History, ts: seq<Target>, u: User, now: real) returns (k: nat)
    requires SortedByDistance(ts)
    ensures var r := Evaluated(h, ts, u, now);
            && (r.Some? ==> k < |ts| && ts[k].id == r.value.id)
            && (r.Some? && !r.value.airborne ==> GroundOpen(h, u, now) && Nearest(ts, GroundTest(h, now), k))
            && (r.Some? && r.value.airborne ==> AirOpen(h, u, now) && Nearest(ts, AirTest(h, u, now), k)
                                                && !(GroundOpen(h, u, now) && exists t :: t in ts && GroundAdmissible(h, t, now)))
            && (r.None? <==> forall t :: t in ts ==> !Speakable(h, t, u, now))
  {
    var g, a := GroundChoice(h, ts, u, now), AirChoice(h, ts, u, now);
    k := if g < |ts| then g else a;
    if g < |ts| {
      FirstIsNearest(ts, GroundTest(h, now), g);
      assert ts[g] in ts && Speakable(h, ts[g], u, now);
    } else if a < |ts| {
      FirstIsNearest(ts, AirTest(h, u, now), a);
      assert ts[a] in ts && Speakable(h, ts[a], u, now);
    }
  }

  lemma FirstIsNearest(ts: seq<Target>, ok: Target -> bool, k: nat)
    requires SortedByDistance(ts) && k < |ts| && ok(ts[k]) && forall j :: 0 <= j < k ==> !ok(ts[j])
    ensures Nearest(ts, ok, k)
  {}

  // ── Runs ────────────────────────────────────────────────────────────────────

  /** A frame in which the advisor is asked, or an acknowledgement with the target in sight. */
  datatype Event = Tick(now: real, ts: seq<Target>, u: User) | InSight(now: real, id: nat)

  datatype Occurrence = Issued(time: real, id: nat, airborne: bool) | Seen(time: real, id: nat)

  function After(h: History, e: Event): (History, seq<Occurrence>) {
    match e
    case InSight(now, id) => (Acknowledged(h, id, now), [Seen(now, id)])
    case Tick(now, ts, u) =>
      match Evaluated(h, ts, u, now)
      case None => (h, [])
      case Some(a) => (Stamped(h, a.id, now), [Issued(now, a.id, a.airborne)])
  }

  function Run(events: seq<Event>): (History, seq<Occurrence>) {
    if events == [] then (NO_HISTORY, [])
    else
      var (h, log) := Run(events[..|events|-1]);
      var (h', more) := After(h, events[|events|-1]);
      (h', log + more)
  }

  predicate ClockMonotone(events: seq<Event>) {
    forall i, j :: 0 <= i < j < |events| ==> events[i].now <= events[j].now
  }

  /** The history remembers everything that happened up to `now`. */
  ghost predicate Remembers(h: History, log: seq<Occurrence>, now: real) {
    forall o :: o in log ==>
      && o.time <= now
      && (o.Issued? ==> o.time <= h.last && o.id in h.issued && o.time <= h.issued[o.id])
      && (o.Seen? ==> o.id in h.acked && o.time <= h.acked[o.id])
  }

  /** How long after an earlier occurrence a later one comes at least. */
  predicate FarEnough(earlier: Occurrence, later: Occurrence) {
    later.Issued? ==>
      var gap := later.time - earlier.time;
      && (earlier.Issued? ==> gap >= 15.0 && (later.airborne ==> gap >= 20.0))
      && (earlier.Issued? && earlier.id == later.id ==> gap >= 30.0 && (later.airborne ==> gap >= 60.0))
      && (earlier.Seen? && earlier.id == later.id && later.airborne ==> gap >= 300.0)
  }

  ghost predicate Spaced(log: seq<Occurrence>) {
    forall i, j :: 0 <= i < j < |log| ==> FarEnough(log[i], log[j])
  }

  lemma IssuedFarEnough(h: History, log: seq<Occurrence>, before: real, ts: seq<Target>, u: User, now: real)
    requires Remembers(h, log, before) && before <= now && Evaluated(h, ts, u, now).Some?
    ensures var a := Evaluated(h, ts, u, now).value;
            forall o :: o in log ==> FarEnough(o, Issued(now, a.id, a.airborne))
  {}

  lemma StampRemembers(h: History, log: seq<Occurrence>, before: real, id: nat, airborne: bool, now: real)
    requires Remembers(h, log, before) && before <= now
    ensures Remembers(Stamped(h, id, now), log + [Issued(now, id, airborne)], now)
  {}

  lemma SightRemembers(h: History, log: seq<Occurrence>, before: real, id: nat, now: real)
    requires Remembers(h, log, before) && before <= now
    ensures Remembers(Acknowledged(h, id, now), log + [Seen(now, id)], now)
  {}

  function LastTime(events: seq<Event>): real
    requires events != []
  {
    events[|events|-1].now
  }

  lemma {:induction false} RunSpaced(events: seq<Event>)
    requires ClockMonotone(events)
    ensures Spaced(Run(events).1)
    ensures events != [] ==> Remembers(Run(events).0, Run(events).1, LastTime(events))
    ensures events == [] ==> Run(events).1 == []
    decreases |events|
  {
    if events != [] {
      var init, e := events[..|events|-1], events[|events|-1];
      RunSpaced(init);
      var (h, log) := Run(init);
      var before := if init == [] then e.now else LastTime(init);
      assert Remembers(h, log, before);
      assert init != [] ==> init[|init|-1] == events[|events|-2];
      match e
      case InSight(now, id) => SightRemembers(h, log, before, id, now);
      case Tick(now, ts, u) =>
        if Evaluated(h, ts, u, now).Some? {
          var a := Evaluated(h, ts, u, now).value;
          IssuedFarEnough(h, log, before, ts, u, now);
          StampRemembers(h, log, before, a.id, a.airborne, now);
        }
    }
  }

  /** Over any run: 15 s between advisories, 20 s before an airborne one; 30 s and 60 s for the same target;
      and no airborne one within 300 s of the target having been seen. */
  lemma AdvisoriesAreSpaced(events: seq<Event>, i: nat, j: nat)
    requires ClockMonotone(events) && i < j < |Run(events).1|
    ensures FarEnough(Run(events).1[i], Run(events).1[j])
  {
    RunSpaced(events);
  }
}
