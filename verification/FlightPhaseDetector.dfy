/** The flight-phase detector: raw phases from geometry, and the delays before a change is believed. */
module FlightPhaseDetector {
  import opened Options
  import opened AtcTypes

  datatype Thresholds = Thresholds(
    taxiMinGs: real, rollMinGs: real, climbMinVs: real, patternMaxAgl: real,
    nearAirport: real, runwayAligned: real, finalDescentRate: real,
    groundToAirborne: real, airborneToLanding: real)

  const JITTER_GUARD: real := 3.0
  const PARKED_CLEARS_LANDED: real := 300.0

  /** What one frame measures. `offRunway` is the angle to the active runway, if its heading is known. */
  datatype Frame = Frame(
    dt: real, onGround: bool, groundspeed: real, distance: real, agl: real, verticalSpeed: real,
    offRunway: Option<real>, offField: real)

  datatype Detector = Detector(
    phase: FlightPhase, candidate: FlightPhase, timer: real,
    wasAirborne: bool, hasLanded: bool, parked: real)

  const START: Detector := Detector(PARKED, PARKED, 0.0, false, false, 0.0)

  // ── One frame ───────────────────────────────────────────────────────────────

  predicate OnFinal(th: Thresholds, f: Frame) {
    f.offRunway.Some? && f.verticalSpeed < th.finalDescentRate
    && f.offRunway.value < th.runwayAligned && f.offField < 90.0
  }

  /** `detect_raw`. */
  function Raw(th: Thresholds, wasAirborne: bool, f: Frame): FlightPhase {
    if f.onGround then
      if f.groundspeed >= th.rollMinGs then (if wasAirborne then LANDING_ROLL else TAKEOFF_ROLL)
      else if f.groundspeed >= th.taxiMinGs then TAXI
      else PARKED
    else if f.distance < th.nearAirport && f.agl < th.patternMaxAgl then
      if OnFinal(th, f) then FINAL_APPROACH else FlightPhase.PATTERN
    else if f.verticalSpeed > th.climbMinVs then CLIMB
    else CRUISE
  }

  predicate Jitter(from: FlightPhase, to: FlightPhase) {
    (from == FlightPhase.PATTERN && to == FINAL_APPROACH) || (from == FINAL_APPROACH && to == FlightPhase.PATTERN)
  }

  predicate NeedsHysteresis(from: FlightPhase, to: FlightPhase) {
    (IsOnGround(from) && !IsOnGround(to)) || (!IsOnGround(from) && to == LANDING_ROLL) || Jitter(from, to)
  }

  function Required(th: Thresholds, from: FlightPhase, to: FlightPhase): real {
    if IsOnGround(from) && !IsOnGround(to) then th.groundToAirborne
    else if !IsOnGround(from) && to == LANDING_ROLL then th.airborneToLanding
    else if Jitter(from, to) then JITTER_GUARD
    else 0.0
  }

  /** Five minutes parked are over with this frame. */
  predicate LongParked(d: Detector, f: Frame) {
    d.phase == PARKED && d.parked + f.dt > PARKED_CLEARS_LANDED
  }

  function Waiting(d: Detector, f: Frame): Detector {
    if d.phase == PARKED then d.(parked := d.parked + f.dt, hasLanded := d.hasLanded && !LongParked(d, f)) else d
  }

  function Entered(d: Detector, to: FlightPhase): Detector {
    d.(phase := to,
       hasLanded := if to == LANDING_ROLL && d.wasAirborne then true else if to == TAKEOFF_ROLL then false else d.hasLanded,
       parked := if to != PARKED then 0.0 else d.parked,
       wasAirborne := if IsAirborne(to) then true else if to == PARKED || to == TAXI then false else d.wasAirborne)
  }

  /** The timer once this frame is added to what the candidate has collected. */
  function Collected(d: Detector, raw: FlightPhase, f: Frame): real {
    (if raw != d.candidate then 0.0 else d.timer) + if NeedsHysteresis(d.phase, raw) then f.dt else 0.0
  }

  predicate Believed(th: Thresholds, d: Detector, raw: FlightPhase, f: Frame) {
    raw != d.phase && (NeedsHysteresis(d.phase, raw) ==> Collected(d, raw, f) >= Required(th, d.phase, raw))
  }

  function Next(th: Thresholds, d: Detector, f: Frame): Detector {
    var w := Waiting(d, f);
    var raw := Raw(th, d.wasAirborne, f);
    if raw == d.phase then w.(candidate := raw, timer := 0.0)
    else
      var c := w.(candidate := raw, timer := Collected(d, raw, f));
      if Believed(th, d, raw, f) then Entered(c, raw) else c
  }

  // ── The object ──────────────────────────────────────────────────────────────

  class Tracker {
    const th: Thresholds
    var phase: FlightPhase
    var candidate: FlightPhase
    var timer: real
    var wasAirborne: bool
    var hasLanded: bool
    var parked: real

    function View(): Detector
      reads this
    {
      Detector(phase, candidate, timer, wasAirborne, hasLanded, parked)
    }

    constructor (th: Thresholds)
      ensures View() == START && this.th == th
    {
      this.th := th;
      phase, candidate, timer := PARKED, PARKED, 0.0;
      wasAirborne, hasLanded, parked := false, false, 0.0;
    }

    /** The clock of a parked aircraft. */
    method Wait(dt: real)
      modifies `parked, `hasLanded
      ensures var d := old(View());
              View() == if d.phase == PARKED
                        then d.(parked := d.parked + dt,
                                hasLanded := d.hasLanded && d.parked + dt <= PARKED_CLEARS_LANDED)
                        else d
    {
      if phase == PARKED {
        parked := parked + dt;
        if parked > PARKED_CLEARS_LANDED {
          hasLanded := false;
        }
      }
    }

    method Enter(to: FlightPhase)
      modifies `phase, `hasLanded, `parked, `wasAirborne
      ensures View() == Entered(old(View()), to)
    {
      phase := to;
      if phase == LANDING_ROLL && wasAirborne {
        hasLanded := true;
      } else if phase == TAKEOFF_ROLL {
        hasLanded := false;
      }
      if phase != PARKED {
        parked := 0.0;
      }
      if IsAirborne(phase) {
        wasAirborne := true;
      } else if IsOnGround(phase) && phase != TAKEOFF_ROLL && phase != LANDING_ROLL {
        wasAirborne := false;
      }
    }

    /** Count the frame for `raw`; true when the change to it is believed. */
    method Count(raw: FlightPhase, dt: real) returns (believed: bool)
      requires raw != phase
      modifies `candidate, `timer
      ensures var d := old(View());
              var t := (if raw != d.candidate then 0.0 else d.timer) + if NeedsHysteresis(d.phase, raw) then dt else 0.0;
              && View() == d.(candidate := raw, timer := t)
              && believed == (NeedsHysteresis(d.phase, raw) ==> t >= Required(th, d.phase, raw))
    {
      if raw != candidate {
        candidate, timer := raw, 0.0;
      }
      believed := true;
      if NeedsHysteresis(phase, raw) {
        timer := timer + dt;
        believed := timer >= Required(th, phase, raw);
      }
    }

    /** `mirrored` tells whether the dialog was told that the aircraft is airborne. */
    method Update(f: Frame) returns (mirrored: bool)
      modifies this
      ensures View() == Next(th, old(View()), f)
      ensures mirrored == (IsAirborne(old(phase)) || IsAirborne(phase))
    {
      Wait(f.dt);
      var raw := Raw(th, wasAirborne, f);
      mirrored := IsAirborne(phase);
      if raw == phase {
        candidate, timer := raw, 0.0;
        return;
      }
      var believed := Count(raw, f.dt);
      if believed {
        Enter(raw);
        mirrored := mirrored || IsAirborne(phase);
      }
    }
  }

  // ── Runs of frames ──────────────────────────────────────────────────────────

  function Run(th: Thresholds, fs: seq<Frame>): Detector {
    if fs == [] then START else Next(th, Run(th, fs[..|fs|-1]), fs[|fs|-1])
  }

  predicate AirborneFlag(d: Detector) {
    d.wasAirborne <==> IsAirborne(d.phase) || d.phase == LANDING_ROLL
  }

  lemma {:induction false} RunAirborneFlag(th: Thresholds, fs: seq<Frame>)
    ensures AirborneFlag(Run(th, fs))
    decreases |fs|
  {
    if fs != [] {
      RunAirborneFlag(th, fs[..|fs|-1]);
    }
  }

  /** A take-off roll never follows a landing roll directly, nor the other way round. */
  lemma RollsNeverMeet(th: Thresholds, fs: seq<Frame>, f: Frame)
    ensures var before, after := Run(th, fs).phase, Run(th, fs + [f]).phase;
            !(before == TAKEOFF_ROLL && after == LANDING_ROLL) && !(before == LANDING_ROLL && after == TAKEOFF_ROLL)
  {
    assert (fs + [f])[..|fs|] == fs;
    RunAirborneFlag(th, fs);
  }

  // ── A change is believed exactly when it has been seen long enough ──────────

  /** How long the last frames have shown `raw` without interruption while the phase was `phase`. */
  function Seen(th: Thresholds, fs: seq<Frame>, phase: FlightPhase, raw: FlightPhase): real {
    if fs == [] then 0.0
    else
      var d, f := Run(th, fs[..|fs|-1]), fs[|fs|-1];
      if d.phase == phase && Raw(th, d.wasAirborne, f) == raw then Seen(th, fs[..|fs|-1], phase, raw) + f.dt else 0.0
  }

  /** The timer measures the candidate, and nothing else has been seen without interruption. */
  ghost predicate TimerMeans(th: Thresholds, fs: seq<Frame>) {
    var d := Run(th, fs);
    && (d.candidate != d.phase ==>
          d.timer == Seen(th, fs, d.phase, d.candidate) && NeedsHysteresis(d.phase, d.candidate))
    && (forall q :: q != d.candidate && q != d.phase ==> Seen(th, fs, d.phase, q) == 0.0)
    && (d.candidate == d.phase ==> forall q :: q != d.phase ==> Seen(th, fs, d.phase, q) == 0.0)
  }

  lemma {:induction false} RunTimerMeans(th: Thresholds, fs: seq<Frame>)
    ensures TimerMeans(th, fs)
    decreases |fs|
  {
    if fs != [] {
      RunTimerMeans(th, fs[..|fs|-1]);
    }
  }

  /** The phase changes with a frame exactly when the frame shows another phase and, where a delay is
      required, that phase has been shown without interruption for at least the delay. */
  lemma ChangesExactlyWhenSeenLongEnough(th: Thresholds, fs: seq<Frame>, f: Frame)
    ensures var d, after := Run(th, fs), Run(th, fs + [f]);
            var raw := Raw(th, d.wasAirborne, f);
            && (after.phase != d.phase <==>
                  raw != d.phase
                  && (NeedsHysteresis(d.phase, raw) ==>
                        Seen(th, fs + [f], d.phase, raw) >= Required(th, d.phase, raw)))
            && (after.phase != d.phase ==> after.phase == raw)
  {
    assert (fs + [f])[..|fs|] == fs;
    RunTimerMeans(th, fs);
  }

  // ── The landing latch ───────────────────────────────────────────────────────

  /** Frame `f`, after `fs`, brings the aircraft onto the landing roll. */
  predicate TouchesDown(th: Thresholds, fs: seq<Frame>, f: Frame) {
    Next(th, Run(th, fs), f).phase == LANDING_ROLL && Run(th, fs).phase != LANDING_ROLL
  }

  /** Frame `f`, after `fs`, ends the memory of a landing: five minutes parked, or a new take-off roll. */
  predicate Forgets(th: Thresholds, fs: seq<Frame>, f: Frame) {
    var d := Run(th, fs);
    LongParked(d, f) || (Next(th, d, f).phase == TAKEOFF_ROLL && d.phase != TAKEOFF_ROLL)
  }

  /** No frame after frame `i` ends the memory of a landing. */
  predicate RemembersFrom(th: Thresholds, fs: seq<Frame>, i: nat) {
    |fs| > i + 1 ==> !Forgets(th, fs[..|fs|-1], fs[|fs|-1]) && RemembersFrom(th, fs[..|fs|-1], i)
  }

  predicate LandedAt(th: Thresholds, fs: seq<Frame>, i: nat) {
    i < |fs| && TouchesDown(th, fs[..i], fs[i]) && RemembersFrom(th, fs, i)
  }

  lemma LatchStep(th: Thresholds, d: Detector, f: Frame)
    requires AirborneFlag(d)
    ensures var e := Next(th, d, f);
            e.hasLanded == ((e.phase == LANDING_ROLL && d.phase != LANDING_ROLL)
                            || (d.hasLanded && !LongParked(d, f) && !(e.phase == TAKEOFF_ROLL && d.phase != TAKEOFF_ROLL)))
  {}

  /** The latch after one more frame. */
  lemma LatchAfter(th: Thresholds, fs: seq<Frame>, f: Frame)
    ensures Next(th, Run(th, fs), f).hasLanded
            == (TouchesDown(th, fs, f) || (Run(th, fs).hasLanded && !Forgets(th, fs, f)))
  {
    RunAirborneFlag(th, fs);
    LatchStep(th, Run(th, fs), f);
  }

  lemma LandedLater(th: Thresholds, fs: seq<Frame>, i: nat)
    requires fs != [] && i < |fs| - 1
    ensures LandedAt(th, fs, i) == (LandedAt(th, fs[..|fs|-1], i) && !Forgets(th, fs[..|fs|-1], fs[|fs|-1]))
  {
    assert fs[..|fs|-1][..i] == fs[..i] && fs[..|fs|-1][i] == fs[i];
  }

  lemma LandedNow(th: Thresholds, fs: seq<Frame>)
    requires fs != []
    ensures LandedAt(th, fs, |fs| - 1) == TouchesDown(th, fs[..|fs|-1], fs[|fs|-1])
  {}

  /** The latch is set exactly when there was a touch-down and, since then, neither a new take-off roll
      nor five minutes parked. */
  lemma {:induction false} LatchMeansLanded(th: Thresholds, fs: seq<Frame>)
    ensures Run(th, fs).hasLanded <==> exists i: nat :: LandedAt(th, fs, i)
    decreases |fs|
  {
    if fs != [] {
      var init, f := fs[..|fs|-1], fs[|fs|-1];
      LatchMeansLanded(th, init);
      LatchAfter(th, init, f);
      LandedNow(th, fs);
      if Run(th, init).hasLanded && !Forgets(th, init, f) {
        var i: nat :| LandedAt(th, init, i);
        LandedLater(th, fs, i);
      }
      if i: nat :| LandedAt(th, fs, i) {
        if i < |fs| - 1 {
          LandedLater(th, fs, i);
        }
      }
    }
  }

  /** A frame on the ground ends the flight at once, without any memory of a landing, exactly when it is slower than
      a roll; a faster one starts the landing roll or waits for it. */
  lemma SlowTouchDownIsNoLanding(th: Thresholds, fs: seq<Frame>, f: Frame)
    requires IsAirborne(Run(th, fs).phase) && f.onGround
    ensures var after := Run(th, fs + [f]);
            && (f.groundspeed < th.rollMinGs <==> IsOnGround(after.phase) && after.phase != LANDING_ROLL)
            && (f.groundspeed < th.rollMinGs ==> !after.wasAirborne && after.hasLanded == Run(th, fs).hasLanded)
            && (f.groundspeed >= th.rollMinGs ==> after.wasAirborne && (after.phase == LANDING_ROLL ==> after.hasLanded))
  {
    assert (fs + [f])[..|fs|] == fs;
    RunAirborneFlag(th, fs);
  }

  /** A climb and a vertical landing: back on the ground, and nothing has landed. */
  lemma VerticalLanding(th: Thresholds)
    requires th.rollMinGs > 0.0 && th.groundToAirborne >= 0.0
    ensures var up := Frame(th.groundToAirborne, false, 60.0, th.nearAirport, 0.0, th.climbMinVs + 1.0, None, 0.0);
            var down := Frame(0.0, true, 0.0, 0.0, 0.0, 0.0, None, 0.0);
            && Run(th, [up]).phase == CLIMB
            && IsOnGround(Run(th, [up, down]).phase) && !Run(th, [up, down]).hasLanded
  {
    var up := Frame(th.groundToAirborne, false, 60.0, th.nearAirport, 0.0, th.climbMinVs + 1.0, None, 0.0);
    var down := Frame(0.0, true, 0.0, 0.0, 0.0, 0.0, None, 0.0);
    assert [up][..0] == [] && [up] + [down] == [up, down];
    assert Run(th, [up]) == Next(th, START, up);
    SlowTouchDownIsNoLanding(th, [up], down);
  }
}
