/** A read-back that is awaited although no clearance is pending: exactly which runs get there, and how long it lasts. */
module DialogPhantoms {
  import opened Options
  import opened AtcTypes
  import opened ReadbackQueue
  import opened DialogSpec
  import opened DialogRuns
  import opened DialogInvariants
  import opened DialogExchange
  import opened DialogCorrections
  import Text

  // ── One step ────────────────────────────────────────────────────────────────

  /** The turn settles an obligation that has no text: a read-back, whatever is said in it; a new clearance; an
      answer that moves the dialog; or one that leaves the frequency. */
  predicate TurnSettles(r: Record, s: Step)
    requires s.DoProcess?
  {
    || s.msg.intent == READBACK
    || s.resp.requiresReadback
    || (s.resp.text != "" && s.resp.next != r.core.state)
    || s.resp.next == EN_ROUTE || s.resp.next == IDLE
  }

  /** The step clears or rebuilds the obligations. */
  predicate Settles(e: Env, r: Record, s: Step) {
    match s
    case DoInit => true
    case DoReset => true
    case DoDisregard(_, _, _) => true
    case DoDropReadback => true
    case DoArm(_) => true
    case DoCancelReadback => true
    case DoRemind(now) => now - r.owed.lastReminder >= 45.0 && r.owed.reminders >= MAX_REMINDERS
    case DoAutoCorrect(_, _, _) => Corrects(e, r, s)
    case DoProcess(_, _, _, _) => TurnSettles(r, s)
    case _ => false
  }

  lemma ReadbackSettles(e: Env, d: Dialog, s: Step)
    requires s.DoProcess? && s.msg.intent == READBACK && QueueSound(e.v, d.r.owed)
    ensures !Phantom(Process(e, d, s.msg, s.ctx, s.resp, s.now).0.r.owed)
  {
    EmptyJoin();
    ProcessOwed(e, d, s.msg, s.ctx, s.resp, s.now);
  }

  lemma TrackedPhantom(e: Env, r: Record, msg: Message, resp: Response)
    requires QueueSound(e.v, r.owed)
    ensures var t := Tracked(e.v, r, msg, resp).owed;
            Phantom(t) <==> Phantom(r.owed) && !resp.requiresReadback && (resp.text == "" || resp.next == r.core.state)
  {
    EmptyJoin();
  }

  lemma TurnPhantom(e: Env, d: Dialog, s: Step)
    requires s.DoProcess? && QueueSound(e.v, d.r.owed)
    ensures Phantom(Process(e, d, s.msg, s.ctx, s.resp, s.now).0.r.owed) <==> Phantom(d.r.owed) && !TurnSettles(d.r, s)
  {
    if s.msg.intent == READBACK {
      ReadbackSettles(e, d, s);
    } else {
      var r := Heard(d.r, s.msg, s.ctx, s.now);
      ProcessOther(e, d, s.msg, s.ctx, s.resp, s.now);
      TrackedPhantom(e, r, s.msg, s.resp);
      FinishSteady(e, Tracked(e.v, r, s.msg, s.resp), s.msg, s.ctx, s.resp);
    }
  }

  lemma FramePhantom(e: Env, r: Record, s: Step)
    requires s.DoAutoCorrect?
    ensures Phantom(StepRecord(e, r, s).owed) <==> Phantom(r.owed) && !Corrects(e, r, s)
  {
    FiredCorrection(e, r, s.phase, s.dt, s.now);
  }

  lemma OtherPhantom(e: Env, r: Record, s: Step)
    requires !s.DoProcess? && !s.DoCapture? && !s.DoRestore? && !s.DoAutoCorrect?
    ensures Phantom(StepRecord(e, r, s).owed)
            <==> if s.DoRaiseReadback? then r.owed.pending == [] else Phantom(r.owed) && !Settles(e, r, s)
  {}

  /** From a sound record flag and queue disagree after a step exactly when it raises the flag over an empty queue,
      or they disagreed before and it settles nothing. */
  lemma PhantomAfterStep(e: Env, w: World, s: Step)
    requires QueueSound(e.v, w.d.r.owed) && !s.DoRestore?
    ensures Phantom(StepWorld(e, w, s).d.r.owed)
            <==> if s.DoRaiseReadback? then w.d.r.owed.pending == [] else Phantom(w.d.r.owed) && !Settles(e, w.d.r, s)
  {
    if s.DoProcess? {
      TurnPhantom(e, w.d, s);
    } else if s.DoAutoCorrect? {
      FramePhantom(e, w.d.r, s);
    } else if !s.DoCapture? {
      OtherPhantom(e, w.d.r, s);
    }
  }

  // ── Over runs ───────────────────────────────────────────────────────────────

  /**
   * The flag was raised over an empty queue, and no step has cleared or rebuilt the obligations since; a
   * restore takes this back, or brings it back, with everything else.
   */
  predicate Raised(e: Env, steps: seq<Step>)
    decreases |steps|
  {
    if steps == [] then false
    else
      var init, s := steps[..|steps|-1], steps[|steps|-1];
      var r := Run(e, START, init).d.r;
      if Restores(e, init, s) then Raised(e, init[..Captures(init)[s.index]])
      else if s.DoRaiseReadback? then r.owed.pending == []
      else Raised(e, init) && !Settles(e, r, s)
  }

  /** Over every run, restores included: flag and queue disagree exactly then. */
  lemma {:induction false} PhantomExactlyWhenRaised(e: Env, steps: seq<Step>)
    ensures Phantom(Run(e, START, steps).d.r.owed) <==> Raised(e, steps)
    decreases |steps|
  {
    if steps != [] {
      var init, s := steps[..|steps|-1], steps[|steps|-1];
      var w := Run(e, START, init);
      RunQueuesSound(e, init);
      PhantomExactlyWhenRaised(e, init);
      if Restores(e, init, s) {
        SnapshotsAreEarlierRecords(e, init);
        assert EarlierRecord(e, init, s.index);
        PhantomExactlyWhenRaised(e, init[..Captures(init)[s.index]]);
      } else if s.DoRestore? {
        FailedRestore(e, init, s, w);
      } else {
        PhantomAfterStep(e, w, s);
      }
    }
  }

  // ── The reminder clock ──────────────────────────────────────────────────────

  /** The clock of the reminders starts now. */
  predicate ClockStarts(r: Record) {
    r.owed.since == r.lastNow && r.owed.lastReminder == r.lastNow && r.owed.reminders == 0
  }

  /** When the flag goes up the clock starts, unless the flag alone is raised, which leaves the clock as it is. */
  lemma ClockStartsUnlessRaised(e: Env, w: World, s: Step)
    requires !s.DoRestore? && !w.d.r.owed.flag && StepWorld(e, w, s).d.r.owed.flag
    ensures ClockStarts(StepWorld(e, w, s).d.r) <==> (s.DoRaiseReadback? ==> ClockStarts(w.d.r))
  {
    if s.DoProcess? {
      var r := Heard(w.d.r, s.msg, s.ctx, s.now);
      if s.msg.intent == READBACK {
        ProcessOwed(e, w.d, s.msg, s.ctx, s.resp, s.now);
      } else {
        ProcessOther(e, w.d, s.msg, s.ctx, s.resp, s.now);
        FinishSteady(e, Tracked(e.v, r, s.msg, s.resp), s.msg, s.ctx, s.resp);
      }
    } else if s.DoAutoCorrect? {
      FiredCorrection(e, w.d.r, s.phase, s.dt, s.now);
    }
  }

  /** A raised flag with a clock at zero: the first poll counts at once, so three waits after it are enough. */
  lemma RaisedSilenceIsShorter(e: Env, w: World, steps: seq<Step>)
    requires w.d.r.owed == NOTHING_OWED
    requires forall i :: 0 <= i < |steps| ==> Quiet(steps[i])
    requires var times := PollTimes(steps); Ascending(times) && times != [] && times[0] >= 45.0
    ensures var raised, times := StepWorld(e, w, DoRaiseReadback), PollTimes(steps);
            !Run(e, raised, steps).d.r.owed.flag <==> Waits(times[0], times[1..], 3) || SomeCorrection(e, raised, steps)
  {
    SilenceDropsAfterFourWaits(e, StepWorld(e, w, DoRaiseReadback), steps);
    FirstWaitIsBest(0.0, PollTimes(steps), 4);
  }

  // ── Runs ────────────────────────────────────────────────────────────────────

  /** After a landing Ground answers with a taxi clearance of its own: a read-back is awaited of nothing. */
  lemma ReadbackOfNothing(e: Env)
    ensures var w := Run(e, START, [DoSetState(LANDING_CLEARED), DoSetNow(1000.0), DoRaiseReadback]);
            Phantom(w.d.r.owed) && w.d.r.owed.text == "" && w.d.r.core.state == LANDING_CLEARED && !ClockStarts(w.d.r)
  {
    ThreeRecords(e, DoSetState(LANDING_CLEARED), DoSetNow(1000.0), DoRaiseReadback);
    SetStateRecord(e, INITIAL, LANDING_CLEARED);
    RaisedAt(e, StepRecord(e, INITIAL, DoSetState(LANDING_CLEARED)), 1000.0);
  }

  lemma RaisedAt(e: Env, r: Record, now: real)
    requires r.owed == NOTHING_OWED && now > 0.0
    ensures var raised := StepRecord(e, StepRecord(e, r, DoSetNow(now)), DoRaiseReadback);
            Phantom(raised.owed) && raised.owed.text == "" && raised.core == r.core && !ClockStarts(raised)
  {
    RaiseRecord(e, StepRecord(e, r, DoSetNow(now)));
  }

  lemma RaiseRecord(e: Env, r: Record)
    ensures StepRecord(e, r, DoRaiseReadback).core == r.core
    ensures StepRecord(e, r, DoRaiseReadback).owed == r.owed.(flag := true)
  {}

  /** Three waits after the first poll it is dropped, and the dialog is back in IDLE. */
  lemma ReadbackOfNothingTimesOut(e: Env)
    ensures var raised := Run(e, START, [DoSetState(LANDING_CLEARED), DoSetNow(1000.0), DoRaiseReadback]);
            var after := Run(e, raised, [DoRemind(1000.0), DoRemind(1045.0), DoRemind(1090.0), DoRemind(1135.0)]).d.r;
            !after.owed.flag && after.core.state == IDLE
  {
    RunOfThree(e, START, DoSetState(LANDING_CLEARED), DoSetNow(1000.0), DoRaiseReadback);
    FourPolls(e, Run(e, START, [DoSetState(LANDING_CLEARED), DoSetNow(1000.0), DoRaiseReadback]), 1000.0);
  }
}
