/** Read-back exchanges over whole runs: how they end, and who owns each slot. */
module DialogExchange {
  import opened Options
  import opened AtcTypes
  import opened ReadbackQueue
  import opened DialogHistory
  import opened DialogSpec
  import opened DialogRuns
  import opened DialogInvariants

  // ── An exchange ends ────────────────────────────────────────────────────────

  predicate IsReadback(s: Step) {
    s.DoProcess? && s.msg.intent == READBACK
  }

  /** Steps that neither add a clearance nor bring an old queue back. */
  predicate NonArming(s: Step) {
    !s.DoArm? && !s.DoRestore? && (s.DoProcess? && s.msg.intent != READBACK ==> !s.resp.requiresReadback)
  }

  ghost predicate LeavesOrClears(a: Obligations, b: Obligations) {
    b.pending == [] || (b.pending == a.pending && b.text == a.text)
  }

  lemma OtherTurn(e: Env, d: Dialog, msg: Message, ctx: Context, resp: Response, now: real)
    requires msg.intent != READBACK && !resp.requiresReadback
    ensures var t := Process(e, d, msg, ctx, resp, now).0;
            LeavesOrClears(d.r.owed, t.r.owed) && t.failText == d.failText && t.fails == d.fails
  {
    var r := Heard(d.r, msg, ctx, now);
    FinishSteady(e, Tracked(e.v, r, msg, resp), msg, ctx, resp);
  }

  lemma NonArmingStep(e: Env, w: World, s: Step)
    requires NonArming(s) && !IsReadback(s)
    ensures var t := StepWorld(e, w, s);
            LeavesOrClears(w.d.r.owed, t.d.r.owed) && t.d.failText == w.d.failText && t.d.fails == w.d.fails
  {
    if s.DoProcess? {
      OtherTurn(e, w.d, s.msg, s.ctx, s.resp, s.now);
    } else if !s.DoCapture? {
      RecordStepLeaves(e, w.d.r, s);
    }
  }

  lemma RecordStepLeaves(e: Env, r: Record, s: Step)
    requires !s.DoProcess? && !s.DoCapture? && !s.DoRestore? && !s.DoArm?
    ensures LeavesOrClears(r.owed, StepRecord(e, r, s).owed)
  {
    if s.DoAutoCorrect? {
      var watch := WatchOn(e, r.core, s.phase);
      if watch.Match? {
        TickOwed(e, r.(lastNow := s.now), watch.c, s.dt);
      }
    }
  }

  /** How many more read-back turns the exchange can survive. */
  function Patience(d: Dialog): nat {
    if d.r.owed.pending == [] then 0
    else |d.r.owed.pending| + (if d.failText == d.r.owed.text && d.fails >= 1 then 0 else 1)
  }

  lemma ReadbackCostsPatience(e: Env, w: World, s: Step)
    requires IsReadback(s) && QueueSound(e.v, w.d.r.owed)
    ensures Patience(StepWorld(e, w, s).d) < Patience(w.d) || Patience(StepWorld(e, w, s).d) == 0
  {
    ProcessOwed(e, w.d, s.msg, s.ctx, s.resp, s.now);
    if AsksAgain(e.v, w.d, s.msg.raw) {
      var d1 := w.d.(r := Heard(w.d.r, s.msg, s.ctx, s.now));
      assert StepWorld(e, w, s).d == AskAgain(e.v, d1, s.msg.raw);
    }
  }

  function Readbacks(steps: seq<Step>): nat {
    if steps == [] then 0
    else Readbacks(steps[..|steps|-1]) + if IsReadback(steps[|steps|-1]) then 1 else 0
  }

  lemma StepQueue(e: Env, w: World, s: Step)
    requires QueueSound(e.v, w.d.r.owed) && !s.DoRestore?
    ensures QueueSound(e.v, StepWorld(e, w, s).d.r.owed)
  {
    if s.DoProcess? {
      ProcessQueue(e, w.d, s.msg, s.ctx, s.resp, s.now);
    } else if !s.DoCapture? {
      RecordStepQueue(e, w.d.r, s);
    }
  }

  lemma {:induction false} RunCostsPatience(e: Env, w: World, steps: seq<Step>)
    requires QueueSound(e.v, w.d.r.owed)
    requires forall i :: 0 <= i < |steps| ==> NonArming(steps[i])
    ensures var t := Run(e, w, steps);
            && QueueSound(e.v, t.d.r.owed)
            && (Patience(t.d) == 0 || Patience(t.d) + Readbacks(steps) <= Patience(w.d))
    decreases |steps|
  {
    if steps != [] {
      var init, s := steps[..|steps|-1], steps[|steps|-1];
      RunCostsPatience(e, w, init);
      var t := Run(e, w, init);
      StepQueue(e, t, s);
      if IsReadback(s) {
        ReadbackCostsPatience(e, t, s);
      } else {
        NonArmingStep(e, t, s);
      }
    }
  }

  /**
   * With n clearances outstanding and none newly armed, n + 1 read-back turns empty the queue,
   * whatever the pilot says in them and whatever else happens in between.
   */
  lemma ExchangeEnds(e: Env, w: World, steps: seq<Step>)
    requires QueueSound(e.v, w.d.r.owed)
    requires forall i :: 0 <= i < |steps| ==> NonArming(steps[i])
    requires Readbacks(steps) > |w.d.r.owed.pending|
    ensures Run(e, w, steps).d.r.owed.pending == []
  {
    RunCostsPatience(e, w, steps);
  }

  // ── Silence ─────────────────────────────────────────────────────────────────

  /** The effect of one reminder poll on the obligations alone. */
  function Polled(o: Obligations, now: real): Obligations {
    if !o.flag || now - o.lastReminder < RemindDelay(o) then o
    else if o.reminders >= MAX_REMINDERS then NOTHING_OWED
    else o.(reminders := o.reminders + 1, lastReminder := now)
  }

  function PolledAll(o: Obligations, times: seq<real>): Obligations
    decreases |times|
  {
    if times == [] then o else PolledAll(Polled(o, times[0]), times[1..])
  }

  /** `k` successive waits of at least 45 s each fit between `from` and the end of `times`. */
  ghost predicate Waits(from: real, times: seq<real>, k: nat)
    decreases k
  {
    k == 0 || exists j :: 0 <= j < |times| && times[j] - from >= 45.0 && Waits(times[j], times[j+1..], k - 1)
  }

  ghost predicate Ascending(times: seq<real>) {
    forall i, j :: 0 <= i < j < |times| ==> times[i] <= times[j]
  }

  lemma WaitsEarlier(from: real, times: seq<real>, late: real, n: nat, k: nat)
    requires n <= |times| && from <= late && Waits(late, times[n..], k)
    ensures Waits(from, times, k)
  {
    if k > 0 {
      var j :| 0 <= j < |times| - n && times[n..][j] - late >= 45.0 && Waits(times[n..][j], times[n..][j+1..], k - 1);
      assert times[n..][j+1..] == times[n+j+1..];
      assert times[n+j] - from >= 45.0;
    }
  }

  lemma {:induction false} SilenceCounts(o: Obligations, times: seq<real>)
    requires o.flag && o.reminders <= 3 && Ascending(times)
    ensures PolledAll(o, times).flag <==> !Waits(o.lastReminder, times, 4 - o.reminders)
    decreases |times|
  {
    if times != [] {
      var t, rest, k := times[0], times[1..], 4 - o.reminders;
      var o1 := Polled(o, t);
      AscendingTail(times);
      if t - o.lastReminder < 45.0 {
        TooEarly(o.lastReminder, times, k);
        SilenceCounts(o, rest);
      } else {
        FirstWaitIsBest(o.lastReminder, times, k);
        if k == 1 {
          SettledStays(rest);
        } else {
          SilenceCounts(o1, rest);
        }
      }
    }
  }

  lemma AscendingTail(times: seq<real>)
    requires times != [] && Ascending(times)
    ensures Ascending(times[1..])
  {}

  lemma {:induction false} SettledStays(times: seq<real>)
    ensures PolledAll(NOTHING_OWED, times) == NOTHING_OWED
    decreases |times|
  {
    if times != [] {
      SettledStays(times[1..]);
    }
  }

  lemma TooEarly(from: real, times: seq<real>, k: nat)
    requires times != [] && k > 0 && times[0] - from < 45.0
    ensures Waits(from, times, k) <==> Waits(from, times[1..], k)
  {
    var rest := times[1..];
    if Waits(from, times, k) {
      var j :| 0 <= j < |times| && times[j] - from >= 45.0 && Waits(times[j], times[j+1..], k - 1);
      assert rest[j-1] == times[j] && rest[j..] == times[j+1..];
    }
    if Waits(from, rest, k) {
      var j :| 0 <= j < |rest| && rest[j] - from >= 45.0 && Waits(rest[j], rest[j+1..], k - 1);
      assert rest[j+1..] == times[j+2..] && rest[j] == times[j+1];
    }
  }

  lemma FirstWaitIsBest(from: real, times: seq<real>, k: nat)
    requires times != [] && k > 0 && times[0] - from >= 45.0 && Ascending(times)
    ensures Waits(from, times, k) <==> Waits(times[0], times[1..], k - 1)
  {
    if Waits(from, times, k) {
      var j :| 0 <= j < |times| && times[j] - from >= 45.0 && Waits(times[j], times[j+1..], k - 1);
      LaterSuffix(times, j);
      WaitsEarlier(times[0], times[1..], times[j], j, k - 1);
    }
  }

  lemma LaterSuffix(times: seq<real>, j: nat)
    requires j < |times|
    ensures times[j+1..] == times[1..][j..]
  {}

  /** Steps during which the pilot stays silent and no handler touches the obligations; frames of the
      corrections are among them. */
  predicate Quiet(s: Step) {
    || s.DoRemind? || s.DoAutoCorrect? || s.DoCapture? || s.DoTransition? || s.DoSetState? || s.DoSetNow?
    || s.DoSetTowerText? || s.DoSetWasAirborne? || s.DoSetRunway? || s.DoSetCallsign? || s.DoClearCallsign?
    || s.DoSetDeparture? || s.DoSetSquawk?
  }

  function PollTimes(steps: seq<Step>): seq<real> {
    if steps == [] then []
    else if steps[|steps|-1].DoRemind? then PollTimes(steps[..|steps|-1]) + [steps[|steps|-1].now]
    else PollTimes(steps[..|steps|-1])
  }

  lemma {:induction false} PolledAllSnoc(o: Obligations, times: seq<real>, t: real)
    ensures PolledAll(o, times + [t]) == Polled(PolledAll(o, times), t)
    decreases |times|
  {
    if times == [] {
      assert PolledAll(o, [t]) == PolledAll(Polled(o, t), []);
    } else {
      assert (times + [t])[1..] == times[1..] + [t];
      PolledAllSnoc(Polled(o, times[0]), times[1..], t);
    }
  }

  /** The frame fires a correction. */
  predicate Corrects(e: Env, r: Record, s: Step) {
    s.DoAutoCorrect? && AutoCorrect(e, r, s.phase, s.dt, s.now).gen != r.gen
  }

  /** Some frame of the run fires a correction. */
  predicate SomeCorrection(e: Env, w: World, steps: seq<Step>) {
    steps != [] &&
    (SomeCorrection(e, w, steps[..|steps|-1])
     || Corrects(e, Run(e, w, steps[..|steps|-1]).d.r, steps[|steps|-1]))
  }

  lemma FiredCorrection(e: Env, r: Record, phase: FlightPhase, dt: real, now: real)
    ensures var t := AutoCorrect(e, r, phase, dt, now);
            && (t.gen != r.gen ==> !t.owed.flag)
            && (t.gen == r.gen ==> t.core == r.core && t.owed == r.owed)
  {}

  lemma QuietStep(e: Env, w: World, s: Step)
    requires Quiet(s)
    ensures var after := StepWorld(e, w, s).d.r.owed;
            if Corrects(e, w.d.r, s) then !after.flag
            else after == if s.DoRemind? then Polled(w.d.r.owed, s.now) else w.d.r.owed
  {
    if s.DoAutoCorrect? {
      FiredCorrection(e, w.d.r, s.phase, s.dt, s.now);
    }
  }

  lemma {:induction false} QuietRun(e: Env, w: World, steps: seq<Step>)
    requires forall i :: 0 <= i < |steps| ==> Quiet(steps[i])
    ensures var after := Run(e, w, steps).d.r.owed;
            if SomeCorrection(e, w, steps) then !after.flag else after == PolledAll(w.d.r.owed, PollTimes(steps))
    decreases |steps|
  {
    if steps != [] {
      var init, s := steps[..|steps|-1], steps[|steps|-1];
      QuietRun(e, w, init);
      QuietStep(e, Run(e, w, init), s);
      PolledAllSnoc(w.d.r.owed, PollTimes(init), if s.DoRemind? then s.now else 0.0);
    }
  }

  /**
   * Under silence what no reminder has counted yet is dropped exactly when a correction fires or the polls
   * leave room for four successive waits of at least 45 s, counted from `lastReminder`: from the arming, for
   * an armed queue, but not for a flag that was only raised.
   */
  lemma SilenceDropsAfterFourWaits(e: Env, w: World, steps: seq<Step>)
    requires w.d.r.owed.flag && w.d.r.owed.reminders == 0
    requires forall i :: 0 <= i < |steps| ==> Quiet(steps[i])
    requires Ascending(PollTimes(steps))
    ensures !Run(e, w, steps).d.r.owed.flag
            <==> Waits(w.d.r.owed.lastReminder, PollTimes(steps), 4) || SomeCorrection(e, w, steps)
  {
    QuietRun(e, w, steps);
    SilenceCounts(w.d.r.owed, PollTimes(steps));
  }

  /** Four waits take three minutes, not the two and a quarter that the cadence comment speaks of. */
  lemma {:induction false} WaitsTakeTime(from: real, times: seq<real>, k: nat)
    requires k > 0 && Waits(from, times, k)
    ensures exists j :: 0 <= j < |times| && times[j] >= from + 45.0 * (k as real)
    decreases k
  {
    var j :| 0 <= j < |times| && times[j] - from >= 45.0 && Waits(times[j], times[j+1..], k - 1);
    if k > 1 {
      WaitsTakeTime(times[j], times[j+1..], k - 1);
      var i :| 0 <= i < |times| - j - 1 && times[j+1..][i] >= times[j] + 45.0 * ((k - 1) as real);
      assert times[j+1+i] >= from + 45.0 * (k as real);
    }
  }

  /** Nobody but a correction moves the dialog. */
  predicate HandsOff(s: Step) {
    Quiet(s) && !s.DoTransition? && !s.DoSetState?
  }

  /** The ten in-flight IFR states survive any silence, unless a correction fires. */
  lemma {:induction false} SilenceNeverEndsAnIfrFlight(e: Env, w: World, steps: seq<Step>)
    requires IsIfrInFlight(w.d.r.core.state)
    requires forall i :: 0 <= i < |steps| ==> HandsOff(steps[i])
    ensures Run(e, w, steps).d.r.core.state == w.d.r.core.state || SomeCorrection(e, w, steps)
    decreases |steps|
  {
    if steps != [] {
      var init, s := steps[..|steps|-1], steps[|steps|-1];
      SilenceNeverEndsAnIfrFlight(e, w, init);
      if !SomeCorrection(e, w, init) {
        SilentStepKeepsState(e, Run(e, w, init), s);
      }
    }
  }

  lemma SilentStepKeepsState(e: Env, w: World, s: Step)
    requires HandsOff(s) && IsIfrInFlight(w.d.r.core.state)
    ensures StepWorld(e, w, s).d.r.core.state == w.d.r.core.state || Corrects(e, w.d.r, s)
  {
    if s.DoAutoCorrect? {
      FiredCorrection(e, w.d.r, s.phase, s.dt, s.now);
    }
  }

  // ── Returning to IDLE ───────────────────────────────────────────────────────

  predicate Unlocked(c: Core) {
    c.runway == "" && c.callsign == ""
  }

  lemma AdvanceReaches(e: Env, r: Record, msg: Message, resp: Response)
    ensures Advance(e, r, msg, resp).core.state == resp.next
    ensures Advance(e, r, msg, resp).core.runway == r.core.runway
  {}

  /** A turn that does not aim at IDLE leaves a runway locked; one that does releases both locks. */
  lemma MoveReaches(e: Env, r: Record, msg: Message, ctx: Context, resp: Response)
    ensures var m := Move(e, r, msg, ctx, resp); m.core.state == resp.next && (resp.next == IDLE <==> Unlocked(m.core))
  {
    AdvanceReaches(e, LockCallsign(LockRunway(r, msg, ctx, resp.next), msg, resp.next), msg, resp);
  }

  lemma HandOverKeepsLocks(e: Env, r: Record, ctx: Context, resp: Response)
    ensures var h := HandOver(e, r, ctx, resp).0.core; h.runway == r.core.runway && h.callsign == r.core.callsign
  {}

  lemma FinishIdle(e: Env, r: Record, msg: Message, ctx: Context, resp: Response)
    ensures Unlocked(Finish(e, r, msg, ctx, resp).0.core) <==> resp.next == IDLE
  {
    MoveReaches(e, Settle(r, resp.next), msg, ctx, resp);
    HandOverKeepsLocks(e, Move(e, Settle(r, resp.next), msg, ctx, resp), ctx, resp);
  }

  /** What releases the locks on the way to IDLE: an answer that aims at IDLE, and everything else but the
      read-back timeout and the bare transition, which release nothing. A restore brings back what it has. */
  predicate Releases(w: World, s: Step) {
    && (s.DoProcess? ==> s.resp.next == IDLE)
    && (s.DoRemind? || s.DoTransition? ==> Unlocked(w.d.r.core))
    && (s.DoRestore? && s.index < |w.snaps| ==> Unlocked(w.snaps[s.index].core))
  }

  /** Which returns to IDLE give up the runway and the callsign, for every step of every run. */
  lemma IdleReturnReleasesLocks(e: Env, w: World, s: Step)
    requires w.d.r.core.state != IDLE && StepWorld(e, w, s).d.r.core.state == IDLE
    ensures Unlocked(StepWorld(e, w, s).d.r.core) <==> Releases(w, s)
  {
    if s.DoProcess? {
      ProcessIdle(e, w.d, s.msg, s.ctx, s.resp, s.now);
    } else if s.DoAutoCorrect? {
      AutoCorrectIdle(e, w.d.r, s.phase, s.dt, s.now);
    }
  }

  lemma ProcessIdle(e: Env, d: Dialog, msg: Message, ctx: Context, resp: Response, now: real)
    requires d.r.core.state != IDLE && Process(e, d, msg, ctx, resp, now).0.r.core.state == IDLE
    ensures Unlocked(Process(e, d, msg, ctx, resp, now).0.r.core) <==> resp.next == IDLE
  {
    var d1 := d.(r := Heard(d.r, msg, ctx, now));
    if msg.intent != READBACK {
      ProcessOther(e, d, msg, ctx, resp, now);
      FinishIdle(e, Tracked(e.v, d1.r, msg, resp), msg, ctx, resp);
    } else if AsksAgain(e.v, d1, msg.raw) {
      ProcessAsked(e, d, msg, ctx, resp, now);
    } else {
      ProcessAccepted(e, d, msg, ctx, resp, now);
      FinishIdle(e, AcceptReadback(e.v, d1, msg.raw).r, msg, ctx, resp);
    }
  }

  lemma AutoCorrectIdle(e: Env, r: Record, phase: FlightPhase, dt: real, now: real)
    requires r.core.state != IDLE && AutoCorrect(e, r, phase, dt, now).core.state == IDLE
    ensures Unlocked(AutoCorrect(e, r, phase, dt, now).core)
  {}

  /** A taxi clearance on runway 27, then a frequency on which that state is not valid: back to IDLE, still locked. */
  lemma FrequencyResetKeepsTheRunway(e: Env)
    ensures var w := Run(e, START, [DoSetState(TAXI_CLEARED), DoSetRunway("27"), DoTransition(IDLE, "freq_validity_reset")]);
            w.d.r.core.state == IDLE && w.d.r.core.runway == "27"
  {
    var cleared := StepWorld(e, START, DoSetState(TAXI_CLEARED));
    var locked := StepWorld(e, cleared, DoSetRunway("27"));
    RunOfThree(e, START, DoSetState(TAXI_CLEARED), DoSetRunway("27"), DoTransition(IDLE, "freq_validity_reset"));
    assert cleared.d.r.core.state == TAXI_CLEARED && locked.d.r.core.runway == "27";
  }

  lemma RunOneMore(e: Env, w: World, steps: seq<Step>, s: Step)
    ensures Run(e, w, steps + [s]) == StepWorld(e, Run(e, w, steps), s)
  {
    assert (steps + [s])[..|steps|] == steps;
  }

  lemma RunOfThree(e: Env, w: World, a: Step, b: Step, c: Step)
    ensures Run(e, w, [a, b, c]) == StepWorld(e, StepWorld(e, StepWorld(e, w, a), b), c)
  {
    var one, two := [] + [a], [a] + [b];
    RunOneMore(e, w, [], a);
    RunOneMore(e, w, one, b);
    RunOneMore(e, w, two, c);
    assert one == [a] && two == [a, b] && two + [c] == [a, b, c];
  }

  /** Four polls, each 45 s after the one before, end a dialog that is in no in-flight IFR state. */
  lemma FourPolls(e: Env, w: World, t: real)
    requires w.d.r.owed.flag && w.d.r.owed.reminders == 0 && t - w.d.r.owed.lastReminder >= 45.0
    requires !IsIfrInFlight(w.d.r.core.state)
    ensures var after := Run(e, w, [DoRemind(t), DoRemind(t + 45.0), DoRemind(t + 90.0), DoRemind(t + 135.0)]).d.r;
            !after.owed.flag && after.core.state == IDLE
            && after.core.runway == w.d.r.core.runway && after.core.callsign == w.d.r.core.callsign
  {
    var three := [DoRemind(t), DoRemind(t + 45.0), DoRemind(t + 90.0)];
    RunOfThree(e, w, DoRemind(t), DoRemind(t + 45.0), DoRemind(t + 90.0));
    RunOneMore(e, w, three, DoRemind(t + 135.0));
    assert three + [DoRemind(t + 135.0)] == [DoRemind(t), DoRemind(t + 45.0), DoRemind(t + 90.0), DoRemind(t + 135.0)];
    ThreePolls(w.d.r, t);
  }

  lemma ThreePolls(r: Record, t: real)
    requires r.owed.flag && r.owed.reminders == 0 && t - r.owed.lastReminder >= 45.0
    ensures var o := Remind(Remind(Remind(r, t).0, t + 45.0).0, t + 90.0).0;
            o.core == r.core && o.owed.flag && o.owed.reminders == 3 && o.owed.lastReminder == t + 90.0
  {
    var one := Remind(r, t).0;
    var two := Remind(one, t + 45.0).0;
    assert one.owed.reminders == 1 && one.owed.lastReminder == t && two.owed.reminders == 2;
  }

  /** A step that changes the record alone. */
  predicate RecordStep(s: Step) {
    !s.DoProcess? && !s.DoCapture? && !s.DoRestore?
  }

  lemma ThreeRecords(e: Env, a: Step, b: Step, c: Step)
    requires RecordStep(a) && RecordStep(b) && RecordStep(c)
    ensures Run(e, START, [a, b, c]).d.r == StepRecord(e, StepRecord(e, StepRecord(e, INITIAL, a), b), c)
  {
    RunOfThree(e, START, a, b, c);
    RecordAlone(e, START, a);
    RecordAlone(e, StepWorld(e, START, a), b);
    RecordAlone(e, StepWorld(e, StepWorld(e, START, a), b), c);
  }

  lemma RecordAlone(e: Env, w: World, s: Step)
    requires RecordStep(s)
    ensures StepWorld(e, w, s).d.r == StepRecord(e, w.d.r, s)
  {}

  lemma ArmedOnTheRunway(e: Env, text: string)
    ensures var r := Run(e, START, [DoSetState(TAXI_CLEARED), DoSetRunway("27"), DoArm(text)]).d.r;
            && r.core.state == TAXI_CLEARED && r.core.runway == "27"
            && r.owed.flag && r.owed.reminders == 0 && r.owed.lastReminder == 0.0
  {
    ThreeRecords(e, DoSetState(TAXI_CLEARED), DoSetRunway("27"), DoArm(text));
    SetStateRecord(e, INITIAL, TAXI_CLEARED);
    var cleared := StepRecord(e, INITIAL, DoSetState(TAXI_CLEARED));
    ArmRecord(e, StepRecord(e, cleared, DoSetRunway("27")), text);
  }

  lemma SetStateRecord(e: Env, r: Record, st: ATCState)
    requires st != r.core.state && st != IDLE
    ensures var next := StepRecord(e, r, DoSetState(st));
            next.core.state == st && next.owed == r.owed && next.lastNow == r.lastNow
  {}

  lemma ArmRecord(e: Env, r: Record, text: string)
    ensures var next := StepRecord(e, r, DoArm(text));
            next.core == r.core && next.owed.flag && next.owed.reminders == 0 && next.owed.lastReminder == r.lastNow
  {
    assert Merge(e.v, r.owed.pending, text) != [];
  }

  /** A clearance on runway 27 that is never read back: back to IDLE with the fourth poll, still locked. */
  lemma TimeoutKeepsTheRunway(e: Env, text: string)
    ensures var armed := Run(e, START, [DoSetState(TAXI_CLEARED), DoSetRunway("27"), DoArm(text)]);
            var after := Run(e, armed, [DoRemind(45.0), DoRemind(90.0), DoRemind(135.0), DoRemind(180.0)]).d.r.core;
            after.state == IDLE && after.runway == "27"
  {
    ArmedOnTheRunway(e, text);
    FourPolls(e, Run(e, START, [DoSetState(TAXI_CLEARED), DoSetRunway("27"), DoArm(text)]), 45.0);
  }

  // ── Who owns a slot ─────────────────────────────────────────────────────────

  function ArmedBy(s: Step): Option<string> {
    if s.DoArm? then Some(s.text)
    else if s.DoProcess? && s.msg.intent != READBACK && s.resp.requiresReadback then Some(s.resp.text)
    else None
  }

  /** The clearances armed so far; a restore takes the log back to its snapshot's, like the queue. */
  datatype Log = Log(armed: seq<string>, saved: seq<seq<string>>)

  function LogStep(w: World, l: Log, s: Step): Log {
    if s.DoCapture? then l.(saved := l.saved + [l.armed])
    else if s.DoRestore? then
      if s.index < |w.snaps| && s.index < |l.saved| && s.expected == w.d.r.gen
      then l.(armed := l.saved[s.index]) else l
    else
      match ArmedBy(s)
      case Some(t) => l.(armed := l.armed + [t])
      case None => l
  }

  function LogOf(e: Env, steps: seq<Step>): Log {
    if steps == [] then Log([], [])
    else
      var init := steps[..|steps|-1];
      LogStep(Run(e, START, init), LogOf(e, init), steps[|steps|-1])
  }

  /** Every pending clearance was armed, and nothing armed later supersedes it. */
  ghost predicate OwnedBy(v: Verifier, pending: seq<string>, armed: seq<string>) {
    forall c :: c in pending ==> exists i :: 0 <= i < |armed| && armed[i] == c && !Superseded(v, armed, i)
  }

  lemma MergeOwned(v: Verifier, pending: seq<string>, armed: seq<string>, text: string)
    requires OwnedBy(v, pending, armed)
    ensures OwnedBy(v, Merge(v, pending, text), armed + [text])
  {
    var more := armed + [text];
    forall c | c in Merge(v, pending, text)
      ensures exists i :: 0 <= i < |more| && more[i] == c && !Superseded(v, more, i)
    {
      if c == text {
        assert more[|armed|] == c && !Superseded(v, more, |armed|);
      } else {
        var i :| 0 <= i < |armed| && armed[i] == c && !Superseded(v, armed, i);
        assert more[i] == c;
        forall j | i < j < |more|
          ensures v.fields(more[j]) != {} && !Overlap(v, c, more[j])
        {
          if j < |armed| {
            assert more[j] == armed[j];
          }
        }
      }
    }
  }

  lemma FewerOwned(v: Verifier, a: seq<string>, b: seq<string>, armed: seq<string>)
    requires OwnedBy(v, a, armed) && forall c :: c in b ==> c in a
    ensures OwnedBy(v, b, armed)
  {}

  lemma StepOwned(e: Env, w: World, s: Step, armed: seq<string>)
    requires !s.DoRestore? && !s.DoCapture? && OwnedBy(e.v, w.d.r.owed.pending, armed)
    ensures OwnedBy(e.v, StepWorld(e, w, s).d.r.owed.pending,
                    if ArmedBy(s).Some? then armed + [ArmedBy(s).value] else armed)
  {
    var before, after := w.d.r.owed.pending, StepWorld(e, w, s).d.r.owed.pending;
    if s.DoArm? {
      MergeOwned(e.v, before, armed, s.text);
    } else if ArmedBy(s).Some? {
      var r1 := SilentAccept(e.v, Heard(w.d.r, s.msg, s.ctx, s.now), s.msg);
      MergeOwned(e.v, r1.owed.pending, armed, s.resp.text);
      FinishSteady(e, RbMerge(e.v, r1, s.resp.text), s.msg, s.ctx, s.resp);
      FewerOwned(e.v, Merge(e.v, r1.owed.pending, s.resp.text), after, armed + [s.resp.text]);
    } else if IsReadback(s) {
      ProcessOwed(e, w.d, s.msg, s.ctx, s.resp, s.now);
      FewerOwned(e.v, before, after, armed);
    } else {
      NonArmingStep(e, w, s);
    }
  }

  /** Over every run, restores included, nothing armed later supersedes a pending clearance. */
  lemma {:induction false} RunOwned(e: Env, steps: seq<Step>)
    ensures var w, l := Run(e, START, steps), LogOf(e, steps);
            && OwnedBy(e.v, w.d.r.owed.pending, l.armed)
            && |w.snaps| == |l.saved|
            && forall i :: 0 <= i < |w.snaps| ==> OwnedBy(e.v, w.snaps[i].owed.pending, l.saved[i])
    decreases |steps|
  {
    if steps != [] {
      var init, s := steps[..|steps|-1], steps[|steps|-1];
      RunOwned(e, init);
      if !s.DoRestore? && !s.DoCapture? {
        StepOwned(e, Run(e, START, init), s, LogOf(e, init).armed);
      }
    }
  }

  /** Each slot of a pending clearance belongs to the last armed clearance that names it. */
  lemma LastArmedOwnsTheSlot(e: Env, steps: seq<Step>, c: string, slot: Field)
    requires c in Run(e, START, steps).d.r.owed.pending && slot in Slots(e.v, c)
    ensures var armed := LogOf(e, steps).armed;
            exists i :: 0 <= i < |armed| && armed[i] == c
              && forall j :: i < j < |armed| ==> slot !in Slots(e.v, armed[j])
  {
    RunOwned(e, steps);
    var armed := LogOf(e, steps).armed;
    var i :| 0 <= i < |armed| && armed[i] == c && !Superseded(e.v, armed, i);
  }
}
