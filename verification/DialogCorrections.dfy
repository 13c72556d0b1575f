/** When a phase-driven correction fires, over whole runs: what its timer has collected. */
module DialogCorrections {
  import opened Options
  import opened AtcTypes
  import opened DialogSpec
  import opened DialogRuns
  import Text

  type Key = (StateName, string)

  /** The correction that watches a frame, under the name that its timer runs for. */
  function KeyOf(core: Core, c: Correction): Key {
    (NameOf(core.state, core.departure), c.name)
  }

  /** Where in a run the snapshots were taken. */
  function Captures(steps: seq<Step>): (ps: seq<nat>)
    ensures forall i :: 0 <= i < |ps| ==> ps[i] < |steps|
  {
    if steps == [] then []
    else
      var n := |steps| - 1;
      Captures(steps[..n]) + if steps[n].DoCapture? then [n] else []
  }

  /** Each snapshot is the record of the run up to where it was taken. */
  lemma {:induction false} SnapshotsAreEarlierRecords(e: Env, steps: seq<Step>)
    ensures |Captures(steps)| == |Run(e, START, steps).snaps|
    ensures forall i :: 0 <= i < |Captures(steps)| ==> EarlierRecord(e, steps, i)
    decreases |steps|
  {
    if steps != [] {
      var init, s := steps[..|steps|-1], steps[|steps|-1];
      SnapshotsAreEarlierRecords(e, init);
      var w := Run(e, START, init);
      if !s.DoCapture? {
        StepKeepsSnapshots(e, w, s);
      }
      forall i | 0 <= i < |Captures(init)|
        ensures EarlierRecord(e, steps, i)
      {
        assert EarlierRecord(e, init, i) && init[..Captures(init)[i]] == steps[..Captures(init)[i]];
      }
    }
  }

  /** Snapshot `i` is the record at the `i`-th capture. */
  ghost predicate EarlierRecord(e: Env, steps: seq<Step>, i: nat) {
    && i < |Captures(steps)| && i < |Run(e, START, steps).snaps|
    && Run(e, START, steps).snaps[i] == Run(e, START, steps[..Captures(steps)[i]]).d.r
  }

  predicate Restores(e: Env, before: seq<Step>, s: Step) {
    && s.DoRestore? && s.index < |Captures(before)|
    && Run(e, START, before).d.r.gen == s.expected
  }

  /**
   * How long `key` has been waiting: the frames that it watched since it was last interrupted, by a
   * frame in which nothing or something else applied or by its own firing. Frames in states that no
   * table watches do not interrupt it, and a restore takes the wait back with everything else.
   */
  function Waited(e: Env, steps: seq<Step>, key: Key): real
    decreases |steps|
  {
    if steps == [] then 0.0
    else
      var init, s := steps[..|steps|-1], steps[|steps|-1];
      if Restores(e, init, s) then Waited(e, init[..Captures(init)[s.index]], key)
      else if !s.DoAutoCorrect? then Waited(e, init, key)
      else FrameWait(e, Run(e, START, init).d.r.core, s.phase, s.dt, key, Waited(e, init, key))
  }

  /** What a frame makes of the wait of `key`. */
  function FrameWait(e: Env, core: Core, phase: FlightPhase, dt: real, key: Key, waited: real): real {
    match WatchOn(e, core, phase)
    case Unwatched => waited
    case NoMatch => 0.0
    case Match(c) => if KeyOf(core, c) != key || Due(e, c, waited + dt) then 0.0 else waited + dt
  }

  predicate Due(e: Env, c: Correction, waited: real) {
    waited >= c.delay * e.correctionFactor
  }

  function Timer(r: Record, key: Key): real {
    if r.correctionKey == Some(key) then r.correctionTimer else 0.0
  }

  /** The one timer of the record holds the wait of its key, and no other key has waited. */
  ghost predicate TimerMeans(e: Env, steps: seq<Step>) {
    forall key :: Waited(e, steps, key) == Timer(Run(e, START, steps).d.r, key)
  }

  predicate SameTimer(a: Record, b: Record) {
    a.correctionKey == b.correctionKey && a.correctionTimer == b.correctionTimer
  }

  lemma MoveTimer(e: Env, r: Record, msg: Message, ctx: Context, resp: Response)
    ensures SameTimer(Move(e, r, msg, ctx, resp), r)
  {
    var locked := LockCallsign(LockRunway(r, msg, ctx, resp.next), msg, resp.next);
    assert SameTimer(locked, r);
    assert SameTimer(Advance(e, locked, msg, resp), locked);
  }

  lemma FinishTimer(e: Env, r: Record, msg: Message, ctx: Context, resp: Response)
    ensures SameTimer(Finish(e, r, msg, ctx, resp).0, r)
  {
    var settled := Settle(r, resp.next);
    MoveTimer(e, settled, msg, ctx, resp);
    assert SameTimer(HandOver(e, Move(e, settled, msg, ctx, resp), ctx, resp).0, Move(e, settled, msg, ctx, resp));
  }

  lemma ProcessTimer(e: Env, d: Dialog, msg: Message, ctx: Context, resp: Response, now: real)
    ensures SameTimer(Process(e, d, msg, ctx, resp, now).0.r, d.r)
  {
    var d1 := d.(r := Heard(d.r, msg, ctx, now));
    if msg.intent != READBACK {
      ProcessOther(e, d, msg, ctx, resp, now);
      FinishTimer(e, Tracked(e.v, d1.r, msg, resp), msg, ctx, resp);
    } else if AsksAgain(e.v, d1, msg.raw) {
      ProcessAsked(e, d, msg, ctx, resp, now);
    } else {
      ProcessAccepted(e, d, msg, ctx, resp, now);
      FinishTimer(e, AcceptReadback(e.v, d1, msg.raw).r, msg, ctx, resp);
    }
  }

  lemma RecordTimer(e: Env, r: Record, s: Step)
    requires !s.DoProcess? && !s.DoCapture? && !s.DoRestore? && !s.DoAutoCorrect?
    ensures SameTimer(StepRecord(e, r, s), r)
  {}

  /** Only frames and restores touch the timer. */
  lemma OtherStep(e: Env, w: World, s: Step)
    requires !s.DoAutoCorrect? && !s.DoRestore?
    ensures SameTimer(StepWorld(e, w, s).d.r, w.d.r)
  {
    if s.DoProcess? {
      ProcessTimer(e, w.d, s.msg, s.ctx, s.resp, s.now);
    } else if !s.DoCapture? {
      RecordTimer(e, w.d.r, s);
    }
  }

  lemma FrameTimer(e: Env, r: Record, phase: FlightPhase, dt: real, now: real, key: Key)
    ensures Timer(AutoCorrect(e, r, phase, dt, now), key) == FrameWait(e, r.core, phase, dt, key, Timer(r, key))
  {}

  /** The dialog is corrected if and only if a correction applies and is due; else nothing guarded changes. */
  predicate CorrectedWhenDue(e: Env, r: Record, t: Record, watch: Watch, waited: Key -> real) {
    && (t.gen != r.gen <==> watch.Match? && Due(e, watch.c, waited(KeyOf(r.core, watch.c))))
    && (t.gen != r.gen ==> t.core.state == watch.c.next && !t.owed.flag && t.owed.pending == [])
    && (t.gen == r.gen ==> t.core == r.core && t.owed == r.owed)
  }

  lemma FrameCorrects(e: Env, r: Record, phase: FlightPhase, dt: real, now: real, waited: Key -> real)
    requires forall key :: waited(key) == Timer(r, key) + dt
    ensures CorrectedWhenDue(e, r, AutoCorrect(e, r, phase, dt, now), WatchOn(e, r.core, phase), waited)
  {}

  lemma FrameMeans(e: Env, init: seq<Step>, s: Step, w: World, key: Key)
    requires s.DoAutoCorrect? && w == Run(e, START, init) && Waited(e, init, key) == Timer(w.d.r, key)
    ensures Waited(e, init + [s], key) == Timer(StepWorld(e, w, s).d.r, key)
  {
    assert (init + [s])[..|init|] == init;
    FrameTimer(e, w.d.r, s.phase, s.dt, s.now, key);
  }

  lemma RestoreMeans(e: Env, init: seq<Step>, s: Step, w: World, key: Key)
    requires w == Run(e, START, init) && Restores(e, init, s)
    requires TimerMeans(e, init[..Captures(init)[s.index]])
    ensures Waited(e, init + [s], key) == Timer(StepWorld(e, w, s).d.r, key)
  {
    assert (init + [s])[..|init|] == init;
    SnapshotsAreEarlierRecords(e, init);
    assert EarlierRecord(e, init, s.index);
  }

  lemma FailedRestore(e: Env, init: seq<Step>, s: Step, w: World)
    requires s.DoRestore? && !Restores(e, init, s) && w == Run(e, START, init)
    ensures StepWorld(e, w, s).d.r == w.d.r
  {
    SnapshotsAreEarlierRecords(e, init);
  }

  lemma OtherWaits(e: Env, init: seq<Step>, s: Step, key: Key)
    requires !s.DoAutoCorrect? && !Restores(e, init, s)
    ensures Waited(e, init + [s], key) == Waited(e, init, key)
  {
    assert (init + [s])[..|init|] == init;
  }

  lemma OtherMeans(e: Env, init: seq<Step>, s: Step, w: World, key: Key)
    requires !s.DoAutoCorrect? && !Restores(e, init, s) && w == Run(e, START, init)
    requires Waited(e, init, key) == Timer(w.d.r, key)
    ensures Waited(e, init + [s], key) == Timer(StepWorld(e, w, s).d.r, key)
  {
    OtherWaits(e, init, s, key);
    if s.DoRestore? {
      FailedRestore(e, init, s, w);
    } else {
      OtherStep(e, w, s);
    }
  }

  lemma RunSnoc(e: Env, init: seq<Step>, s: Step)
    ensures Run(e, START, init + [s]) == StepWorld(e, Run(e, START, init), s)
  {
    assert (init + [s])[..|init|] == init;
  }

  lemma {:induction false} RunTimerMeans(e: Env, steps: seq<Step>)
    ensures TimerMeans(e, steps)
    decreases |steps|
  {
    if steps != [] {
      var init, s := steps[..|steps|-1], steps[|steps|-1];
      var w := Run(e, START, init);
      Text.FrontAndLast(steps);
      RunSnoc(e, init, s);
      RunTimerMeans(e, init);
      if Restores(e, init, s) {
        RunTimerMeans(e, init[..Captures(init)[s.index]]);
      }
      forall key
        ensures Waited(e, steps, key) == Timer(StepWorld(e, w, s).d.r, key)
      {
        if Restores(e, init, s) {
          RestoreMeans(e, init, s, w, key);
        } else if s.DoAutoCorrect? {
          FrameMeans(e, init, s, w, key);
        } else {
          OtherMeans(e, init, s, w, key);
        }
      }
    }
  }

  /** A frame corrects the dialog exactly when a correction applies and has waited its full delay. */
  lemma CorrectsExactlyWhenDue(e: Env, steps: seq<Step>, frame: Step)
    requires frame.DoAutoCorrect?
    ensures var r, t := Run(e, START, steps).d.r, Run(e, START, steps + [frame]).d.r;
            CorrectedWhenDue(e, r, t, WatchOn(e, r.core, frame.phase), key => Waited(e, steps, key) + frame.dt)
  {
    var waited := key => Waited(e, steps, key) + frame.dt;
    FrameRun(e, steps, frame);
    forall key
      ensures waited(key) == Timer(Run(e, START, steps).d.r, key) + frame.dt
    {
      WaitedIsTimer(e, steps, key);
    }
    FrameCorrects(e, Run(e, START, steps).d.r, frame.phase, frame.dt, frame.now, waited);
  }

  lemma WaitedIsTimer(e: Env, steps: seq<Step>, key: Key)
    ensures Waited(e, steps, key) == Timer(Run(e, START, steps).d.r, key)
  {
    RunTimerMeans(e, steps);
  }

  lemma FrameRun(e: Env, steps: seq<Step>, frame: Step)
    requires frame.DoAutoCorrect?
    ensures Run(e, START, steps + [frame]).d.r
            == AutoCorrect(e, Run(e, START, steps).d.r, frame.phase, frame.dt, frame.now)
  {
    RunSnoc(e, steps, frame);
  }

  /** A step that is no restore, and no frame in a state that some table watches. */
  predicate Unobserved(e: Env, w: World, s: Step) {
    !s.DoRestore? && (s.DoAutoCorrect? ==> WatchOn(e, w.d.r.core, s.phase) == Unwatched)
  }

  lemma UnobservedStep(e: Env, steps: seq<Step>, s: Step, key: Key)
    requires Unobserved(e, Run(e, START, steps), s)
    ensures Waited(e, steps + [s], key) == Waited(e, steps, key)
  {
    assert (steps + [s])[..|steps|] == steps;
  }

  /** Every step of `away` finds the dialog unwatched. */
  ghost predicate AllUnobserved(e: Env, steps: seq<Step>, away: seq<Step>)
    decreases |away|
  {
    away == [] ||
    (AllUnobserved(e, steps, away[..|away|-1])
     && Unobserved(e, Run(e, START, steps + away[..|away|-1]), away[|away|-1]))
  }

  /** However long the dialog stays away, in IDLE for one, a wait that had begun goes on where it stopped. */
  lemma {:induction false} AbsenceDoesNotEndTheWait(e: Env, steps: seq<Step>, away: seq<Step>, key: Key)
    requires AllUnobserved(e, steps, away)
    ensures Waited(e, steps + away, key) == Waited(e, steps, key)
    decreases |away|
  {
    if away == [] {
      assert steps + away == steps;
    } else {
      var init, last := away[..|away|-1], away[|away|-1];
      AbsenceDoesNotEndTheWait(e, steps, init, key);
      UnobservedStep(e, steps + init, last, key);
      Text.FrontAndLast(away);
      Text.Assoc(steps, init, [last]);
    }
  }
}
