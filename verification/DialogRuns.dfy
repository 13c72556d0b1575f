/** What every run of the dialog keeps, and what a restored snapshot can and cannot undo. */
module DialogRuns {
  import opened Options
  import opened AtcTypes
  import opened ReadbackQueue
  import opened DialogSpec

  // ── The generation counter ──────────────────────────────────────────────────

  /** All that can happen to the obligations unnoticed: fields are credited and clearances retired. */
  ghost predicate OnlyCredited(a: Obligations, b: Obligations) {
    && (forall c :: c in b.pending ==> c in a.pending)
    && a.ok <= b.ok
    && a.since == b.since && a.lastReminder == b.lastReminder && a.reminders == b.reminders
  }

  /** The generation never goes back, and while it stands still the core does not change. */
  ghost predicate Steady(a: Record, b: Record) {
    && a.gen <= b.gen
    && (a.gen == b.gen ==> a.core == b.core && OnlyCredited(a.owed, b.owed))
  }

  lemma AdvanceSteady(e: Env, r: Record, msg: Message, resp: Response)
    ensures var m := Advance(e, r, msg, resp);
            && r.gen <= m.gen && m.owed == r.owed && m.lastNow == r.lastNow
            && (r.gen == m.gen ==> m.core == r.core)
  {}

  lemma MoveSteady(e: Env, r: Record, msg: Message, ctx: Context, resp: Response)
    ensures var m := Move(e, r, msg, ctx, resp);
            && r.gen <= m.gen && m.owed == r.owed && m.lastNow == r.lastNow
            && (r.gen == m.gen ==> m.core == r.core)
  {
    AdvanceSteady(e, LockCallsign(LockRunway(r, msg, ctx, resp.next), msg, resp.next), msg, resp);
  }

  lemma FinishSteady(e: Env, r: Record, msg: Message, ctx: Context, resp: Response)
    ensures var f := Finish(e, r, msg, ctx, resp).0;
            && r.gen <= f.gen && f.lastNow == r.lastNow
            && f.owed == (if resp.next == EN_ROUTE || resp.next == IDLE then NOTHING_OWED else r.owed)
            && (r.gen == f.gen ==> f.core == r.core && f.owed == r.owed)
  {
    MoveSteady(e, Settle(r, resp.next), msg, ctx, resp);
  }

  /** A turn that is no read-back, a read-back that is accepted, and one that is asked for again. */
  lemma ProcessOther(e: Env, d: Dialog, msg: Message, ctx: Context, resp: Response, now: real)
    requires msg.intent != READBACK
    ensures var r := Heard(d.r, msg, ctx, now);
            Process(e, d, msg, ctx, resp, now).0.r == Finish(e, Tracked(e.v, r, msg, resp), msg, ctx, resp).0
  {}

  lemma ProcessAccepted(e: Env, d: Dialog, msg: Message, ctx: Context, resp: Response, now: real)
    requires var d1 := d.(r := Heard(d.r, msg, ctx, now)); msg.intent == READBACK && !AsksAgain(e.v, d1, msg.raw)
    ensures var d1 := d.(r := Heard(d.r, msg, ctx, now));
            Process(e, d, msg, ctx, resp, now).0.r == Finish(e, AcceptReadback(e.v, d1, msg.raw).r, msg, ctx, resp).0
  {}

  lemma ProcessAsked(e: Env, d: Dialog, msg: Message, ctx: Context, resp: Response, now: real)
    requires var d1 := d.(r := Heard(d.r, msg, ctx, now)); msg.intent == READBACK && AsksAgain(e.v, d1, msg.raw)
    ensures var d1 := d.(r := Heard(d.r, msg, ctx, now));
            Process(e, d, msg, ctx, resp, now).0 == AskAgain(e.v, d1, msg.raw)
  {}

  /** What a turn that reaches the hooks does to the obligations. */
  lemma ProcessOwed(e: Env, d: Dialog, msg: Message, ctx: Context, resp: Response, now: real)
    ensures var r, after := d.r, Process(e, d, msg, ctx, resp, now).0.r;
            && r.gen <= after.gen && after.lastNow == now
            && (msg.intent == READBACK && AsksAgain(e.v, d, msg.raw) ==>
                  after.gen == r.gen && after.core == r.core && after.owed == Credited(e.v, r.owed, msg.raw))
            && (msg.intent == READBACK && !AsksAgain(e.v, d, msg.raw) ==>
                  after.gen > r.gen && after.owed == NOTHING_OWED)
            && (msg.intent != READBACK && after.gen == r.gen ==>
                  after.core == r.core && after.owed == r.owed)
  {
    var d1 := d.(r := Heard(d.r, msg, ctx, now));
    if msg.intent != READBACK {
      FinishSteady(e, Tracked(e.v, d1.r, msg, resp), msg, ctx, resp);
    } else {
      assert AsksAgain(e.v, d, msg.raw) == AsksAgain(e.v, d1, msg.raw);
      FinishSteady(e, AcceptReadback(e.v, d1, msg.raw).r, msg, ctx, resp);
    }
  }

  lemma TickSteady(e: Env, r: Record, c: Correction, dt: real)
    ensures var t := Tick(e, r, c, dt);
            r.gen <= t.gen && (r.gen == t.gen ==> t.core == r.core && t.owed == r.owed)
  {}

  lemma AutoCorrectSteady(e: Env, r: Record, phase: FlightPhase, dt: real, now: real)
    ensures var t := AutoCorrect(e, r, phase, dt, now);
            r.gen <= t.gen && (r.gen == t.gen ==> t.core == r.core && t.owed == r.owed)
  {
    var watch := WatchOn(e, r.core, phase);
    if watch.Match? {
      TickSteady(e, r.(lastNow := now), watch.c, dt);
    }
  }

  /** A step other than a processed message changes core and obligations only under a new generation. */
  lemma RecordStepSteady(e: Env, r: Record, s: Step)
    requires !s.DoProcess? && !s.DoCapture? && !s.DoRestore?
    ensures var t := StepRecord(e, r, s);
            r.gen <= t.gen && (r.gen == t.gen ==> t.core == r.core && t.owed == r.owed)
  {
    if s.DoAutoCorrect? {
      AutoCorrectSteady(e, r, s.phase, s.dt, s.now);
    }
  }

  lemma StepSteady(e: Env, w: World, s: Step)
    ensures Steady(w.d.r, StepWorld(e, w, s).d.r)
  {
    if s.DoProcess? {
      ProcessOwed(e, w.d, s.msg, s.ctx, s.resp, s.now);
    } else if !s.DoCapture? && !s.DoRestore? {
      RecordStepSteady(e, w.d.r, s);
    }
  }

  lemma {:induction false} RunSteady(e: Env, w: World, steps: seq<Step>)
    ensures Steady(w.d.r, Run(e, w, steps).d.r)
    decreases |steps|
  {
    if steps != [] {
      RunSteady(e, w, steps[..|steps|-1]);
      StepSteady(e, Run(e, w, steps[..|steps|-1]), steps[|steps|-1]);
    }
  }

  // ── The revert guard ────────────────────────────────────────────────────────

  /** Running a first part and then the rest is running the whole. */
  lemma {:induction false} RunConcat(e: Env, w: World, a: seq<Step>, b: seq<Step>)
    ensures Run(e, w, a + b) == Run(e, Run(e, w, a), b)
    decreases |b|
  {
    if b == [] {
      assert a + b == a;
    } else {
      var all := a + b;
      assert all[..|all|-1] == a + b[..|b|-1];
      RunConcat(e, w, a, b[..|b|-1]);
    }
  }

  /**
   * A guard samples the generation at `w`; `steps` happen; then the restore succeeds. Everything
   * but the generation is as captured, the generation is above every value seen so far, and the
   * core had not changed since the sample, so the restore discards no such change.
   */
  lemma RestoreUndoesOnlyTheGuardedTurn(e: Env, w: World, steps: seq<Step>, snap: Record)
    requires RestoreIfGen(Run(e, w, steps).d.r, snap, w.d.r.gen).1
    ensures var before := Run(e, w, steps).d.r;
            && RestoreIfGen(before, snap, w.d.r.gen).0 == snap.(gen := before.gen + 1)
            && before.core == w.d.r.core
            && OnlyCredited(w.d.r.owed, before.owed)
  {
    RunSteady(e, w, steps);
  }

  /**
   * Capture, process, restore: a turn whose speech failed leaves no trace in the record but a new
   * generation. (The count of failed read-back attempts is not in the record and survives.)
   */
  lemma FailedTurnLeavesNoTrace(e: Env, w: World, msg: Message, ctx: Context, resp: Response, now: real)
    ensures var heard := StepWorld(e, StepWorld(e, w, DoCapture), DoProcess(msg, ctx, resp, now));
            var undone := StepWorld(e, heard, DoRestore(|w.snaps|, heard.d.r.gen));
            && undone.d.r == w.d.r.(gen := heard.d.r.gen + 1)
            && undone.d.r.gen > w.d.r.gen
  {
    var taken := StepWorld(e, w, DoCapture);
    StepSteady(e, taken, DoProcess(msg, ctx, resp, now));
    StepKeepsSnapshots(e, taken, DoProcess(msg, ctx, resp, now));
  }

  lemma {:induction false} SnapshotsStay(e: Env, w: World, steps: seq<Step>)
    ensures w.snaps <= Run(e, w, steps).snaps
    decreases |steps|
  {
    if steps != [] {
      var init, s := steps[..|steps|-1], steps[|steps|-1];
      SnapshotsStay(e, w, init);
      if !s.DoCapture? {
        StepKeepsSnapshots(e, Run(e, w, init), s);
      }
    }
  }

  /**
   * What was captured is what a restore brings back, however much has happened since: every field but
   * the generation, which goes above all that were seen.
   */
  lemma CapturedIsWhatComesBack(e: Env, w: World, steps: seq<Step>)
    ensures var later := Run(e, StepWorld(e, w, DoCapture), steps);
            && StepWorld(e, later, DoRestore(|w.snaps|, later.d.r.gen)).d.r == w.d.r.(gen := later.d.r.gen + 1)
            && later.d.r.gen >= w.d.r.gen
  {
    var captured := StepWorld(e, w, DoCapture);
    SnapshotsStay(e, captured, steps);
    RunSteady(e, captured, steps);
    assert captured.snaps[|w.snaps|] == w.d.r;
    assert Run(e, captured, steps).snaps[|w.snaps|] == w.d.r;
  }

  lemma StepKeepsSnapshots(e: Env, w: World, s: Step)
    requires !s.DoCapture?
    ensures StepWorld(e, w, s).snaps == w.snaps
  {}

  lemma RestoreOvertakes(e: Env, w: World, index: nat, after: seq<Step>)
    requires index < |w.snaps|
    ensures Run(e, StepWorld(e, w, DoRestore(index, w.d.r.gen)), after).d.r.gen > w.d.r.gen
  {
    RunSteady(e, StepWorld(e, w, DoRestore(index, w.d.r.gen)), after);
  }

  /**
   * Once any restore succeeded (at the end of `early + late`), every guard that sampled the
   * generation after `early` fails for ever, whatever happens next.
   */
  lemma EarlierGuardsFailForever(e: Env, w: World, early: seq<Step>, late: seq<Step>,
                                 index: nat, after: seq<Step>, snap: Record)
    requires index < |Run(e, w, early + late).snaps|
    ensures var sampled := Run(e, w, early).d.r.gen;
            var world := Run(e, w, early + late);
            var last := Run(e, StepWorld(e, world, DoRestore(index, world.d.r.gen)), after).d.r;
            RestoreIfGen(last, snap, sampled) == (last, false)
  {
    RunConcat(e, w, early, late);
    RunSteady(e, Run(e, w, early), late);
    RestoreOvertakes(e, Run(e, w, early + late), index, after);
  }

  /**
   * Exactly which change escapes the guard: obligations move while the generation stands still if
   * and only if the step is a read-back that is asked for again and that credited something.
   */
  lemma OnlyAskAgainEscapesTheGuard(e: Env, w: World, s: Step)
    ensures var r, after := w.d.r, StepWorld(e, w, s).d.r;
            (after.gen == r.gen && after.owed != r.owed)
            <==>
            && s.DoProcess? && s.msg.intent == READBACK && AsksAgain(e.v, w.d, s.msg.raw)
            && Credited(e.v, r.owed, s.msg.raw) != r.owed
  {
    if s.DoProcess? {
      ProcessOwed(e, w.d, s.msg, s.ctx, s.resp, s.now);
    } else if !s.DoCapture? && !s.DoRestore? {
      RecordStepSteady(e, w.d.r, s);
    }
  }
}
