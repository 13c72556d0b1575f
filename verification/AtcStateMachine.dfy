/**
 * The controller's state machine as the object it is: one mutable record and a method for each
 * entry point. Every method is proved against the function of `DialogSpec` that describes it.
 */
module AtcStateMachine {
  import opened Options
  import opened AtcTypes
  import opened ReadbackQueue
  import opened DialogHistory
  import opened DialogSpec
  import CallsignLock

  class StateMachine {
    const e: Env

    var gen: nat
    var core: Core
    var owed: Obligations
    var towerText: string
    var lastNow: real
    var correctionKey: Option<(StateName, string)>
    var correctionTimer: real
    // Function-local statics: no snapshot contains them.
    var failText: string
    var fails: nat

    function Value(): Record
      reads this
    {
      Record(gen, core, owed, towerText, lastNow, correctionKey, correctionTimer)
    }

    function Whole(): Dialog
      reads this
    {
      Dialog(Value(), failText, fails)
    }

    constructor (e: Env)
      ensures this.e == e && Whole() == START.d
    {
      this.e := e;
      gen, core, owed, towerText, lastNow := 0, IDLE_CORE, NOTHING_OWED, "", 0.0;
      correctionKey, correctionTimer := None, 0.0;
      failText, fails := "", 0;
    }

    // ── Read-back queue ───────────────────────────────────────────────────────

    method RebuildCache()
      modifies this`owed
      ensures owed == Recache(old(owed), old(owed.pending))
    {
      var joined := "";
      for i := 0 to |owed.pending|
        invariant owed == old(owed) && joined == Join(owed.pending[..i])
      {
        if joined != "" {
          joined := joined + "  ";
        }
        joined := joined + owed.pending[i];
        assert owed.pending[..i+1][..i] == owed.pending[..i];
      }
      assert owed.pending[..|owed.pending|] == owed.pending;
      owed := owed.(text := joined, flag := owed.pending != []);
    }

    method ClearReadback()
      modifies this
      ensures Whole() == old(Whole()).(r := RbClear(old(Value())))
    {
      gen := gen + 1;
      owed := owed.(flag := false, pending := [], text := "", ok := {});
      owed := owed.(since := 0.0, lastReminder := 0.0, reminders := 0);
    }

    /** What survives a new clearance, found by one pass over the queue. */
    method EraseOverlapping(text: string)
      modifies this`owed
      ensures owed == old(owed).(pending := WithoutOverlap(e.v, old(owed.pending), text))
    {
      var q, kept := owed.pending, [];
      for i := 0 to |q|
        invariant owed == old(owed)
        invariant kept == WithoutOverlap(e.v, q[..i], text)
      {
        assert q[..i+1] == q[..i] + [q[i]];
        WithoutOverlapConcat(e.v, q[..i], [q[i]], text);
        if !Overlap(e.v, q[i], text) {
          kept := kept + [q[i]];
        }
      }
      assert q[..|q|] == q;
      owed := owed.(pending := kept);
    }

    method MergeReadback(text: string)
      modifies this
      ensures Whole() == old(Whole()).(r := RbMerge(e.v, old(Value()), text))
    {
      gen := gen + 1;
      if e.v.fields(text) == {} {
        owed := owed.(pending := []);
      } else {
        EraseOverlapping(text);
      }
      owed := owed.(pending := owed.pending + [text]);
      RebuildCache();
      owed := owed.(ok := {}, since := lastNow, lastReminder := lastNow, reminders := 0);
    }

    method RemoveMatched()
      modifies this`owed
      ensures owed == Recache(old(owed), Unsettled(e.v, old(owed.pending), old(owed.ok)))
    {
      var q, kept := owed.pending, [];
      var i := |q|;
      while i > 0
        invariant 0 <= i <= |q| && owed == old(owed)
        invariant kept == Unsettled(e.v, q[i..], owed.ok)
      {
        i := i - 1;
        if !Settled(e.v, owed.ok, q[i]) {
          kept := [q[i]] + kept;
        }
      }
      owed := owed.(pending := kept);
      RebuildCache();
    }

    method ArmReadback(text: string)
      modifies this
      ensures Whole() == old(Whole()).(r := RbMerge(e.v, old(Value()), text))
    {
      MergeReadback(text);
    }

    method CancelReadback()
      modifies this
      ensures Whole() == old(Whole()).(r := StepRecord(e, old(Value()), DoCancelReadback))
    {
      if owed.flag {
        ClearReadback();
      }
    }

    // ── Bridge ────────────────────────────────────────────────────────────────

    method TransitionTo(next: ATCState, reason: string)
      modifies this`gen, this`core
      ensures Whole() == old(Whole()).(r := Transition(old(Value()), next, reason))
    {
      if next == core.state {
        return;
      }
      gen := gen + 1;
      var log := PushHistory(core.history, core.state, reason, lastNow);
      core := core.(history := log, state := next);
    }

    /** The bridge's `set_readback_pending`: false drops the queue as well, true raises the flag alone. */
    method SetReadbackPending(b: bool)
      modifies this`gen, this`owed
      ensures Whole() == old(Whole()).(r := if b then RaiseReadback(old(Value())) else DropReadback(old(Value())))
    {
      gen := gen + 1;
      owed := owed.(flag := b);
      if !b {
        owed := owed.(pending := [], text := "", ok := {});
      }
    }

    method SetAirborne(b: bool)
      modifies this`gen, this`core
      ensures Whole() == old(Whole()).(r := SetWasAirborne(old(Value()), b))
    {
      if core.wasAirborne == b {
        return;
      }
      gen := gen + 1;
      core := core.(wasAirborne := b);
    }

    method SetSessionCallsign(cs: string)
      modifies this`gen, this`core
      ensures Whole() == old(Whole()).(r := SetCallsign(old(Value()), cs))
    {
      gen := gen + 1;
      core := core.(callsign := cs);
      if cs != "" {
        core := core.(reference := cs);
      }
    }

    method GiveUpLocks()
      modifies this`gen, this`core
      ensures Whole() == old(Whole()).(r := ReleaseLocks(old(Value())))
    {
      if core.runway != "" {
        gen := gen + 1;
        core := core.(runway := "");
      }
      if core.callsign != "" {
        gen := gen + 1;
        core := core.(callsign := "");
      }
    }

    method SetStateExternally(s: ATCState)
      modifies this
      ensures Whole() == old(Whole()).(r := SetState(old(Value()), s))
    {
      TransitionTo(s, "external_set_state");
      if s == IDLE {
        GiveUpLocks();
      }
    }

    // ── Lifecycle ─────────────────────────────────────────────────────────────

    method InitSession()
      modifies this
      ensures Whole() == old(Whole()).(r := Init(e, old(Value())))
    {
      gen := gen + 1;
      core := core.(state := IDLE, wasAirborne := false, runway := "", callsign := "",
                    departure := DepartureType.PATTERN, history := []);
      owed := NOTHING_OWED;
      lastNow := 0.0;
      if e.readyForTakeoff {
        core := core.(state := TOWER_CONTACT);
      }
    }

    method ResetSession()
      modifies this
      ensures Whole() == old(Whole()).(r := Reset(old(Value())))
    {
      gen := gen + 1;
      core := core.(state := IDLE, wasAirborne := false, runway := "", callsign := "",
                    departure := DepartureType.PATTERN, squawk := "", history := []);
      owed := NOTHING_OWED;
      lastNow, towerText := 0.0, "";
    }

    method DisregardDialog(phase: FlightPhase, nearAirport: bool, now: real)
      modifies this
      ensures Whole() == old(Whole()).(r := Disregard(old(Value()), phase, nearAirport, now))
    {
      SetReadbackPending(false);
      lastNow := now;
      towerText := "";
      TransitionTo(DisregardTarget(phase, nearAirport), DisregardReason(phase, nearAirport));
      if !IsAirborne(phase) {
        core := core.(runway := "", callsign := "", departure := DepartureType.PATTERN);
      }
    }

    // ── Reminders and corrections ─────────────────────────────────────────────

    method ConsumeReadbackReminder(now: real) returns (key: Reminder)
      modifies this
      ensures (Value(), key) == Remind(old(Value()), now)
      ensures failText == old(failText) && fails == old(fails)
    {
      key := Silent;
      if !owed.flag || now - owed.lastReminder < RemindDelay(owed) {
        return;
      }
      if owed.reminders >= MAX_REMINDERS {
        ClearReadback();
        if IsIfrInFlight(core.state) {
          return;
        }
        key := if IsIfr(core.state) then ReadbackCancelIfr else ReadbackCancel;
        TransitionTo(IDLE, "readback_timeout_cancel");
        return;
      }
      gen := gen + 1;
      owed := owed.(reminders := owed.reminders + 1, lastReminder := now);
    }

    method FireCorrection(c: Correction)
      modifies this
      ensures Whole() == old(Whole()).(r := Corrected(old(Value()), c))
    {
      TransitionTo(c.next, "auto_correction:" + c.name);
      SetReadbackPending(false);
      if c.next == IDLE {
        core := core.(runway := "", callsign := "");
      }
      correctionKey, correctionTimer := None, 0.0;
    }

    method TickCorrection(c: Correction, dt: real)
      modifies this
      ensures Whole() == old(Whole()).(r := Tick(e, old(Value()), c, dt))
    {
      var key := Some((NameOf(core.state, core.departure), c.name));
      if key != correctionKey {
        correctionKey, correctionTimer := key, 0.0;
      }
      correctionTimer := correctionTimer + dt;
      if correctionTimer >= c.delay * e.correctionFactor {
        FireCorrection(c);
      }
    }

    method CheckAutoCorrection(phase: FlightPhase, dt: real, now: real)
      modifies this
      ensures Whole() == old(Whole()).(r := AutoCorrect(e, old(Value()), phase, dt, now))
    {
      lastNow := now;
      var watch := WatchOn(e, core, phase);
      if watch.NoMatch? {
        correctionKey, correctionTimer := None, 0.0;
      } else if watch.Match? {
        TickCorrection(watch.c, dt);
      }
    }

    // ── Processing a message ──────────────────────────────────────────────────

    /** Credit what was read back right and retire the clearances that are settled. */
    method Credit(raw: string)
      modifies this`owed
      ensures owed == Credited(e.v, old(owed), raw)
    {
      owed := owed.(ok := owed.ok + e.v.matched(owed.text, raw));
      RemoveMatched();
    }

    /** The read-back turn: true when it asks again, with the text to say. */
    method TakeReadback(raw: string) returns (again: bool, text: string)
      modifies this
      ensures again == AsksAgain(e.v, old(Whole()), raw)
      ensures again ==> text == AskAgainText(e.v, old(Whole()), raw) && Whole() == AskAgain(e.v, old(Whole()), raw)
      ensures !again ==> Whole() == AcceptReadback(e.v, old(Whole()), raw)
    {
      again, text := false, "";
      if owed.flag && owed.text != "" {
        Credit(raw);
        var mismatches := if owed.pending == [] then [] else Outstanding(e.v.check(owed.text, raw), owed.ok);
        if mismatches != [] {
          if failText != owed.text {
            failText, fails := owed.text, 0;
          }
          fails := fails + 1;
          if fails < 2 {
            text := (if core.callsign == "" then "" else core.callsign + ", ") + mismatches[0].correction + ".";
            again := true;
            return;
          }
          fails := 0;
        }
      }
      ClearReadback();
    }

    method TrackOther(msg: Message, resp: Response)
      requires msg.intent != READBACK
      modifies this
      ensures Whole() == old(Whole()).(r := Tracked(e.v, old(Value()), msg, resp))
    {
      if owed.flag && owed.text != "" && msg.raw != "" {
        if e.v.check(owed.text, msg.raw) == [] {
          ClearReadback();
        }
      }
      if resp.requiresReadback {
        MergeReadback(resp.text);
      } else if owed.flag && resp.text != "" {
        if resp.next != core.state {
          ClearReadback();
        } else {
          gen := gen + 1;
          owed := owed.(lastReminder := lastNow, reminders := 0);
        }
      }
    }

    method Lock(msg: Message, ctx: Context, next: ATCState)
      modifies this`gen, this`core
      ensures Whole() == old(Whole()).(r := LockCallsign(LockRunway(old(Value()), msg, ctx, next), msg, next))
    {
      if core.runway == "" && next != IDLE {
        gen := gen + 1;
        core := core.(runway := RunwayToLock(msg, ctx));
      }
      if core.callsign == "" && msg.callsign != "" && next != IDLE {
        gen := gen + 1;
        core := core.(callsign := CallsignLock.Lock(msg.callsign, core.reference));
      }
    }

    method AdvanceState(msg: Message, resp: Response)
      modifies this`gen, this`core
      ensures Whole() == old(Whole()).(r := Advance(e, old(Value()), msg, resp))
    {
      if resp.text != "" || resp.next != core.state {
        var prev := core.state;
        TransitionTo(resp.next, "process:" + e.intentKey(msg.intent));
        if resp.next == DEPARTURE_CLEARED && prev != DEPARTURE_CLEARED {
          gen := gen + 1;
          core := core.(departure := if msg.intent == READY_FOR_DEPARTURE_VFR then CROSS_COUNTRY
                                     else DepartureType.PATTERN);
        } else if prev == DEPARTURE_CLEARED && resp.next != DEPARTURE_CLEARED {
          gen := gen + 1;
          core := core.(departure := DepartureType.PATTERN);
        }
      }
    }

    method MoveDialog(msg: Message, ctx: Context, resp: Response)
      modifies this`gen, this`core
      ensures Whole() == old(Whole()).(r := Move(e, old(Value()), msg, ctx, resp))
    {
      Lock(msg, ctx, resp.next);
      AdvanceState(msg, resp);
      if resp.next == IDLE {
        GiveUpLocks();
      }
    }

    method HandOverDialog(ctx: Context, resp: Response) returns (out: Response)
      modifies this`gen, this`core, this`towerText
      ensures (Value(), out) == HandOver(e, old(Value()), ctx, resp)
    {
      out := resp;
      var target := TowerOnlyTarget(e, Value(), ctx);
      if target.Some? {
        TransitionTo(target.value, "tower_only_auto_advance");
        out := out.(next := target.value);
      }
      if resp.text != "" {
        gen := gen + 1;
        towerText := resp.text;
      }
    }

    method FinishHooks(msg: Message, ctx: Context, resp: Response) returns (out: Response)
      modifies this
      ensures (Value(), out) == Finish(e, old(Value()), msg, ctx, resp)
      ensures failText == old(failText) && fails == old(fails)
    {
      if resp.next == EN_ROUTE || resp.next == IDLE {
        ClearReadback();
      }
      MoveDialog(msg, ctx, resp);
      out := HandOverDialog(ctx, resp);
    }

    method ApplyHooks(msg: Message, ctx: Context, resp: Response) returns (out: Response)
      modifies this
      ensures (Whole(), out) == Hooks(e, old(Whole()), msg, ctx, resp)
    {
      if msg.intent == READBACK {
        var again, text := TakeReadback(msg.raw);
        if again {
          return Response(text, core.state, resp.requiresReadback);
        }
      } else {
        TrackOther(msg, resp);
      }
      out := FinishHooks(msg, ctx, resp);
    }

    method ProcessMessage(msg: Message, ctx: Context, resp: Response, now: real) returns (out: Response)
      modifies this
      ensures (Whole(), out) == Process(e, old(Whole()), msg, ctx, resp, now)
    {
      lastNow := now;
      if StartsDepartureCycle(msg, ctx) {
        SetAirborne(false);
      }
      out := ApplyHooks(msg, ctx, resp);
    }

    // ── Snapshots ─────────────────────────────────────────────────────────────

    method CaptureSnapshot() returns (snap: Record)
      ensures snap == Value()
    {
      snap := Value();
    }

    method RestoreSnapshotIfGen(snap: Record, expected: nat) returns (ok: bool)
      modifies this
      ensures (Value(), ok) == RestoreIfGen(old(Value()), snap, expected)
      ensures failText == old(failText) && fails == old(fails)
    {
      if gen != expected {
        return false;
      }
      gen := gen + 1;
      core, owed, towerText, lastNow := snap.core, snap.owed, snap.towerText, snap.lastNow;
      correctionKey, correctionTimer := snap.correctionKey, snap.correctionTimer;
      return true;
    }
  }
}
