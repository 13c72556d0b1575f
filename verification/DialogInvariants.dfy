/** Invariants of the dialog over all runs, restored snapshots included. */
module DialogInvariants {
  import opened Options
  import opened AtcTypes
  import opened ReadbackQueue
  import opened DialogHistory
  import opened DialogSpec
  import opened DialogRuns
  import CallsignLock

  /** Queue discipline, a cached text that always tells the queue's truth, and a flag that is up as long as
      something is pending. */
  ghost predicate QueueSound(v: Verifier, o: Obligations) {
    QueueOk(v, o.pending) && o.text == Join(o.pending) && (o.pending != [] ==> o.flag)
  }

  /** The flag is up and nothing is pending. */
  predicate Phantom(o: Obligations) {
    o.flag && o.pending == []
  }

  /** The locked callsign never contradicts the configured one. */
  predicate CallsignSound(c: Core) {
    c.callsign != "" && c.reference != "" ==> !CallsignLock.Conflicts(c.callsign, c.reference)
  }

  ghost predicate CoreSound(c: Core, now: real) {
    CallsignSound(c) && HistorySound(c.history, c.state, now)
  }

  ghost predicate Sound(v: Verifier, r: Record) {
    QueueSound(v, r.owed) && CoreSound(r.core, r.lastNow)
  }

  // ── The obligations ─────────────────────────────────────────────────────────

  lemma MergedSound(v: Verifier, o: Obligations, text: string, now: real)
    requires QueueSound(v, o)
    ensures QueueSound(v, Merged(v, o, text, now))
  {
    MergeOk(v, o.pending, text);
  }

  lemma CreditedSound(v: Verifier, o: Obligations, raw: string)
    requires QueueSound(v, o)
    ensures QueueSound(v, Credited(v, o, raw))
  {
    UnsettledOk(v, o.pending, o.ok + v.matched(o.text, raw));
  }

  lemma EmptyJoin()
    ensures Join([]) == ""
  {}

  lemma TrackedQueue(e: Env, r: Record, msg: Message, resp: Response)
    requires QueueSound(e.v, r.owed)
    ensures QueueSound(e.v, Tracked(e.v, r, msg, resp).owed)
  {
    EmptyJoin();
    var r1 := SilentAccept(e.v, r, msg);
    MergedSound(e.v, r1.owed, resp.text, r1.lastNow);
  }

  lemma ProcessQueue(e: Env, d: Dialog, msg: Message, ctx: Context, resp: Response, now: real)
    requires QueueSound(e.v, d.r.owed)
    ensures QueueSound(e.v, Process(e, d, msg, ctx, resp, now).0.r.owed)
  {
    EmptyJoin();
    if msg.intent == READBACK {
      ProcessOwed(e, d, msg, ctx, resp, now);
      CreditedSound(e.v, d.r.owed, msg.raw);
    } else {
      var r := Heard(d.r, msg, ctx, now);
      TrackedQueue(e, r, msg, resp);
      FinishSteady(e, Tracked(e.v, r, msg, resp), msg, ctx, resp);
    }
  }

  lemma RecordStepQueue(e: Env, r: Record, s: Step)
    requires !s.DoProcess? && !s.DoCapture? && !s.DoRestore?
    requires QueueSound(e.v, r.owed)
    ensures QueueSound(e.v, StepRecord(e, r, s).owed)
  {
    EmptyJoin();
    match s
    case DoArm(t) => MergedSound(e.v, r.owed, t, r.lastNow);
    case DoAutoCorrect(phase, dt, now) =>
      var watch := WatchOn(e, r.core, phase);
      if watch.Match? {
        TickOwed(e, r.(lastNow := now), watch.c, dt);
      }
    case _ =>
  }

  lemma TickOwed(e: Env, r: Record, c: Correction, dt: real)
    ensures Tick(e, r, c, dt).owed == r.owed || Tick(e, r, c, dt).owed == Dropped(r.owed)
  {}

  // ── The core ────────────────────────────────────────────────────────────────

  lemma TransitionSound(r: Record, next: ATCState, reason: string)
    requires CoreSound(r.core, r.lastNow)
    ensures CoreSound(Transition(r, next, reason).core, r.lastNow)
  {
    if next != r.core.state {
      PushedSound(r.core.history, r.core.state, reason, next, r.lastNow);
    }
  }

  lemma AdvanceSound(e: Env, r: Record, msg: Message, resp: Response)
    requires CoreSound(r.core, r.lastNow)
    ensures CoreSound(Advance(e, r, msg, resp).core, r.lastNow)
  {
    TransitionSound(r, resp.next, "process:" + e.intentKey(msg.intent));
  }

  lemma FinishSound(e: Env, r: Record, msg: Message, ctx: Context, resp: Response)
    requires CoreSound(r.core, r.lastNow)
    ensures CoreSound(Finish(e, r, msg, ctx, resp).0.core, r.lastNow)
  {
    var r1 := Settle(r, resp.next);
    MoveSound(e, r1, msg, ctx, resp);
    MoveSteady(e, r1, msg, ctx, resp);
    var r2 := Move(e, r1, msg, ctx, resp);
    var target := TowerOnlyTarget(e, r2, ctx);
    if target.Some? {
      TransitionSound(r2, target.value, "tower_only_auto_advance");
    }
  }

  lemma MoveSound(e: Env, r: Record, msg: Message, ctx: Context, resp: Response)
    requires CoreSound(r.core, r.lastNow)
    ensures CoreSound(Move(e, r, msg, ctx, resp).core, r.lastNow)
  {
    AdvanceSound(e, LockCallsign(LockRunway(r, msg, ctx, resp.next), msg, resp.next), msg, resp);
  }

  lemma ProcessSound(e: Env, d: Dialog, msg: Message, ctx: Context, resp: Response, now: real)
    requires CoreSound(d.r.core, d.r.lastNow) && d.r.lastNow <= now
    ensures CoreSound(Process(e, d, msg, ctx, resp, now).0.r.core, now)
  {
    var d1 := d.(r := Heard(d.r, msg, ctx, now));
    HeardSound(d.r, msg, ctx, now);
    if msg.intent != READBACK {
      ProcessOther(e, d, msg, ctx, resp, now);
      TrackedCore(e.v, d1.r, msg, resp);
      FinishedSound(e, Tracked(e.v, d1.r, msg, resp), msg, ctx, resp);
    } else if AsksAgain(e.v, d1, msg.raw) {
      ProcessAsked(e, d, msg, ctx, resp, now);
    } else {
      ProcessAccepted(e, d, msg, ctx, resp, now);
      AcceptedCore(e.v, d1, msg.raw);
      FinishedSound(e, AcceptReadback(e.v, d1, msg.raw).r, msg, ctx, resp);
    }
  }

  lemma HeardSound(r: Record, msg: Message, ctx: Context, now: real)
    requires CoreSound(r.core, r.lastNow) && r.lastNow <= now
    ensures CoreSound(Heard(r, msg, ctx, now).core, now) && Heard(r, msg, ctx, now).lastNow == now
  {}

  lemma TrackedCore(v: Verifier, r: Record, msg: Message, resp: Response)
    ensures Tracked(v, r, msg, resp).core == r.core && Tracked(v, r, msg, resp).lastNow == r.lastNow
  {}

  lemma AcceptedCore(v: Verifier, d: Dialog, raw: string)
    ensures AcceptReadback(v, d, raw).r.core == d.r.core && AcceptReadback(v, d, raw).r.lastNow == d.r.lastNow
  {}

  lemma FinishedSound(e: Env, r: Record, msg: Message, ctx: Context, resp: Response)
    requires CoreSound(r.core, r.lastNow)
    ensures CoreSound(Finish(e, r, msg, ctx, resp).0.core, r.lastNow)
  {
    FinishSound(e, r, msg, ctx, resp);
  }

  lemma TickSound(e: Env, r: Record, c: Correction, dt: real)
    requires CoreSound(r.core, r.lastNow)
    ensures CoreSound(Tick(e, r, c, dt).core, r.lastNow)
  {
    var key := Some((NameOf(r.core.state, r.core.departure), c.name));
    var timer := (if key != r.correctionKey then 0.0 else r.correctionTimer) + dt;
    TransitionSound(r.(correctionKey := key, correctionTimer := timer), c.next, "auto_correction:" + c.name);
  }

  lemma DisregardSound(r: Record, phase: FlightPhase, near: bool, now: real)
    requires CoreSound(r.core, r.lastNow) && r.lastNow <= now
    ensures CoreSound(Disregard(r, phase, near, now).core, now)
  {
    TransitionSound(DropReadback(r).(lastNow := now, towerText := ""),
                    DisregardTarget(phase, near), DisregardReason(phase, near));
  }

  lemma SetStateSound(r: Record, s: ATCState)
    requires CoreSound(r.core, r.lastNow)
    ensures CoreSound(SetState(r, s).core, SetState(r, s).lastNow)
  {
    TransitionSound(r, s, "external_set_state");
  }

  lemma RemindSound(r: Record, now: real)
    requires CoreSound(r.core, r.lastNow)
    ensures CoreSound(Remind(r, now).0.core, Remind(r, now).0.lastNow)
  {
    TransitionSound(RbClear(r), IDLE, "readback_timeout_cancel");
  }

  lemma RecordStepCore(e: Env, r: Record, s: Step)
    requires !s.DoProcess? && !s.DoCapture? && !s.DoRestore?
    requires CoreSound(r.core, r.lastNow)
    requires TimeOf(s).Some? ==> r.lastNow <= TimeOf(s).value
    ensures CoreSound(StepRecord(e, r, s).core, StepRecord(e, r, s).lastNow)
  {
    match s
    case DoSetState(st) => SetStateSound(r, st);
    case DoTransition(st, reason) => TransitionSound(r, st, reason);
    case DoRemind(now) => RemindSound(r, now);
    case DoDisregard(phase, near, now) => DisregardSound(r, phase, near, now);
    case DoAutoCorrect(phase, dt, now) => AutoCorrectSound(e, r, phase, dt, now);
    case _ =>
  }

  lemma AutoCorrectSound(e: Env, r: Record, phase: FlightPhase, dt: real, now: real)
    requires CoreSound(r.core, r.lastNow) && r.lastNow <= now
    ensures var t := AutoCorrect(e, r, phase, dt, now); CoreSound(t.core, t.lastNow)
  {
    var watch := WatchOn(e, r.core, phase);
    if watch.Match? {
      TickSound(e, r.(lastNow := now), watch.c, dt);
    }
  }

  // ── One monotone clock ──────────────────────────────────────────────────────

  function TimeOf(s: Step): Option<real> {
    match s
    case DoDisregard(_, _, now) => Some(now)
    case DoSetNow(now) => Some(now)
    case DoRemind(now) => Some(now)
    case DoAutoCorrect(_, _, now) => Some(now)
    case DoProcess(_, _, _, now) => Some(now)
    case _ => None
  }

  /** The time of the last step that carried one. */
  function ClockAfter(steps: seq<Step>): real {
    if steps == [] then 0.0
    else
      match TimeOf(steps[|steps|-1])
      case Some(t) => t
      case None => ClockAfter(steps[..|steps|-1])
  }

  /** No step is earlier than one before it, and time starts at zero. */
  predicate Monotone(steps: seq<Step>) {
    steps == [] ||
    (Monotone(steps[..|steps|-1]) && ClockAfter(steps[..|steps|-1]) <= ClockAfter(steps))
  }

  lemma RecordStepTime(e: Env, r: Record, s: Step)
    requires !s.DoProcess? && !s.DoCapture? && !s.DoRestore?
    ensures var t := StepRecord(e, r, s).lastNow;
            t == r.lastNow || t == 0.0 || TimeOf(s) == Some(t)
  {}

  /** Every record is sound, and none is ahead of the clock. */
  ghost predicate WorldSound(v: Verifier, w: World, clock: real) {
    && Sound(v, w.d.r) && w.d.r.lastNow <= clock
    && (forall i :: 0 <= i < |w.snaps| ==> Sound(v, w.snaps[i]) && w.snaps[i].lastNow <= clock)
  }

  lemma StepSound(e: Env, w: World, s: Step, clock: real, next: real)
    requires 0.0 <= clock <= next && WorldSound(e.v, w, clock)
    requires next == (if TimeOf(s).Some? then TimeOf(s).value else clock)
    ensures WorldSound(e.v, StepWorld(e, w, s), next)
  {
    if s.DoProcess? {
      ProcessQueue(e, w.d, s.msg, s.ctx, s.resp, s.now);
      ProcessSound(e, w.d, s.msg, s.ctx, s.resp, s.now);
      ProcessOwed(e, w.d, s.msg, s.ctx, s.resp, s.now);
    } else if !s.DoCapture? && !s.DoRestore? {
      RecordStepQueue(e, w.d.r, s);
      RecordStepCore(e, w.d.r, s);
      RecordStepTime(e, w.d.r, s);
    }
  }

  /** Under one monotone clock every reachable record, and every snapshot taken on the way, is sound. */
  lemma {:induction false} RunSound(e: Env, steps: seq<Step>)
    requires Monotone(steps)
    ensures 0.0 <= ClockAfter(steps)
    ensures WorldSound(e.v, Run(e, START, steps), ClockAfter(steps))
    decreases |steps|
  {
    if steps == [] {
      EmptyJoin();
    } else {
      var init := steps[..|steps|-1];
      RunSound(e, init);
      StepSound(e, Run(e, START, init), steps[|steps|-1], ClockAfter(init), ClockAfter(steps));
    }
  }

  /** Every record's queue is disciplined. */
  ghost predicate QueuesSound(v: Verifier, w: World) {
    QueueSound(v, w.d.r.owed) && forall i :: 0 <= i < |w.snaps| ==> QueueSound(v, w.snaps[i].owed)
  }

  lemma StepQueues(e: Env, w: World, s: Step)
    requires QueuesSound(e.v, w)
    ensures QueuesSound(e.v, StepWorld(e, w, s))
  {
    if s.DoProcess? {
      ProcessQueue(e, w.d, s.msg, s.ctx, s.resp, s.now);
    } else if !s.DoCapture? && !s.DoRestore? {
      RecordStepQueue(e, w.d.r, s);
    }
  }

  /** The queue part of that does not depend on the clock. */
  lemma {:induction false} RunQueuesSound(e: Env, steps: seq<Step>)
    ensures QueuesSound(e.v, Run(e, START, steps))
    decreases |steps|
  {
    if steps != [] {
      RunQueuesSound(e, steps[..|steps|-1]);
      StepQueues(e, Run(e, START, steps[..|steps|-1]), steps[|steps|-1]);
    }
  }

  /** At no point of any run, whatever its clock does, are more than six clearances outstanding. */
  lemma NeverMoreThanSix(e: Env, steps: seq<Step>)
    ensures |Run(e, START, steps).d.r.owed.pending| <= 6
  {
    RunQueuesSound(e, steps);
    QueueBound(e.v, Run(e, START, steps).d.r.owed.pending);
  }
}
