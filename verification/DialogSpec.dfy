/**
 * The controller's dialog as a value: the record that snapshots copy, one function for each
 * entry point that changes it, and the runs those entry points generate.
 */
module DialogSpec {
  import opened Options
  import opened AtcTypes
  import opened ReadbackQueue
  import opened DialogHistory
  import CallsignLock

  const FIRST_REMINDER_SECS: real := 45.0
  const REPEAT_REMINDER_SECS: real := 45.0
  const MAX_REMINDERS: nat := 3

  /** What the guard protects: every change to it advances the generation. */
  datatype Core = Core(
    state: ATCState,
    history: seq<HistoryEntry<ATCState>>,
    runway: string,
    callsign: string,
    reference: string,
    departure: DepartureType,
    squawk: string,
    wasAirborne: bool)

  /** The clearances owed a read-back, the fields already credited, and the reminder clock. */
  datatype Obligations = Obligations(
    flag: bool,
    since: real,
    lastReminder: real,
    reminders: nat,
    text: string,
    pending: seq<string>,
    ok: set<Field>)

  /** Everything a snapshot copies. `gen` counts the semantic changes. */
  datatype Record = Record(
    gen: nat,
    core: Core,
    owed: Obligations,
    towerText: string,
    lastNow: real,
    correctionKey: Option<(StateName, string)>,
    correctionTimer: real)

  /** The record and the two function-local statics that no snapshot contains. */
  datatype Dialog = Dialog(r: Record, failText: string, fails: nat)

  datatype Intent =
    | READBACK | READY_FOR_DEPARTURE_VFR
    | REQUEST_TAXI | INITIAL_CALL_GROUND | INITIAL_CALL_TOWER | INITIAL_CALL
    | OTHER(key: string)

  datatype Message = Message(intent: Intent, raw: string, runway: string, callsign: string)
  datatype Context = Context(onGround: bool, towerOnly: bool, activeRunway: string)
  datatype Response = Response(text: string, next: ATCState, requiresReadback: bool)

  datatype Correction = Correction(name: string, phases: set<FlightPhase>, delay: real, next: ATCState)

  /** The verifier and the data tables that the dialog consults. */
  datatype Env = Env(
    v: Verifier,
    intentKey: Intent -> string,
    towerAdvance: StateName -> Option<ATCState>,
    corrections: StateName -> Option<seq<Correction>>,
    correctionFactor: real,
    readyForTakeoff: bool)

  const NOTHING_OWED: Obligations := Obligations(false, 0.0, 0.0, 0, "", [], {})
  const IDLE_CORE: Core := Core(IDLE, [], "", "", "", DepartureType.PATTERN, "", false)
  const INITIAL: Record := Record(0, IDLE_CORE, NOTHING_OWED, "", 0.0, None, 0.0)

  // ── Building blocks ─────────────────────────────────────────────────────────

  /** A semantic change of the core, of the obligations. */
  function WithCore(r: Record, c: Core): Record {
    r.(gen := r.gen + 1, core := c)
  }

  function WithOwed(r: Record, o: Obligations): Record {
    r.(gen := r.gen + 1, owed := o)
  }

  /** Rebuild the joined text and the flag from the queue. */
  function Recache(o: Obligations, q: seq<string>): Obligations {
    o.(pending := q, text := Join(q), flag := q != [])
  }

  function Merged(v: Verifier, o: Obligations, text: string, now: real): Obligations {
    Recache(o, Merge(v, o.pending, text)).(ok := {}, since := now, lastReminder := now, reminders := 0)
  }

  /** The queue is dropped but the reminder clock is left alone. */
  function Dropped(o: Obligations): Obligations {
    o.(flag := false, pending := [], text := "", ok := {})
  }

  function RbClear(r: Record): Record {
    WithOwed(r, NOTHING_OWED)
  }

  function RbMerge(v: Verifier, r: Record, text: string): Record {
    WithOwed(r, Merged(v, r.owed, text, r.lastNow))
  }

  function Moved(c: Core, next: ATCState, reason: string, now: real): Core {
    c.(history := Pushed(c.history, c.state, reason, now), state := next)
  }

  function Transition(r: Record, next: ATCState, reason: string): Record {
    if next == r.core.state then r else WithCore(r, Moved(r.core, next, reason, r.lastNow))
  }

  /** The bridge `set_readback_pending(false)`. */
  function DropReadback(r: Record): Record {
    WithOwed(r, Dropped(r.owed))
  }

  /** The bridge `set_readback_pending(true)`: the flag alone, without a clearance and without a clock. */
  function RaiseReadback(r: Record): Record {
    WithOwed(r, r.owed.(flag := true))
  }

  function SetWasAirborne(r: Record, b: bool): Record {
    if r.core.wasAirborne == b then r else WithCore(r, r.core.(wasAirborne := b))
  }

  function SetCallsign(r: Record, cs: string): Record {
    WithCore(r, r.core.(callsign := cs, reference := if cs == "" then r.core.reference else cs))
  }

  /** Each lock that is held is given up, one generation apiece. */
  function ReleaseLocks(r: Record): Record {
    var r1 := if r.core.runway != "" then WithCore(r, r.core.(runway := "")) else r;
    if r1.core.callsign != "" then WithCore(r1, r1.core.(callsign := "")) else r1
  }

  function SetState(r: Record, s: ATCState): Record {
    var r1 := Transition(r, s, "external_set_state");
    if s == IDLE then ReleaseLocks(r1) else r1
  }

  // ── Lifecycle ───────────────────────────────────────────────────────────────

  function Init(e: Env, r: Record): Record {
    var start := if e.readyForTakeoff then TOWER_CONTACT else IDLE;
    r.(gen := r.gen + 1, core := IDLE_CORE.(state := start, reference := r.core.reference, squawk := r.core.squawk),
       owed := NOTHING_OWED, lastNow := 0.0)
  }

  /** `stop` and `reset`. */
  function Reset(r: Record): Record {
    r.(gen := r.gen + 1, core := IDLE_CORE.(reference := r.core.reference), owed := NOTHING_OWED,
       towerText := "", lastNow := 0.0)
  }

  function DisregardTarget(phase: FlightPhase, nearAirport: bool): ATCState {
    if !IsAirborne(phase) then IDLE else if nearAirport then PATTERN_ENTRY else EN_ROUTE
  }

  function DisregardReason(phase: FlightPhase, nearAirport: bool): string {
    if !IsAirborne(phase) then "disregard_on_ground"
    else if nearAirport then "disregard_airborne_near_airport" else "disregard_airborne_transit"
  }

  function Disregard(r: Record, phase: FlightPhase, nearAirport: bool, now: real): Record {
    var r1 := DropReadback(r).(lastNow := now, towerText := "");
    var r2 := Transition(r1, DisregardTarget(phase, nearAirport), DisregardReason(phase, nearAirport));
    if IsAirborne(phase) then r2
    else r2.(core := r2.core.(runway := "", callsign := "", departure := DepartureType.PATTERN))
  }

  // ── Read-back reminders ─────────────────────────────────────────────────────

  datatype Reminder = Silent | ReadbackCancel | ReadbackCancelIfr

  function RemindDelay(o: Obligations): real {
    if o.reminders == 0 then FIRST_REMINDER_SECS else REPEAT_REMINDER_SECS
  }

  function Remind(r: Record, now: real): (Record, Reminder) {
    if !r.owed.flag || now - r.owed.lastReminder < RemindDelay(r.owed) then (r, Silent)
    else if r.owed.reminders >= MAX_REMINDERS then
      if IsIfrInFlight(r.core.state) then (RbClear(r), Silent)
      else
        (Transition(RbClear(r), IDLE, "readback_timeout_cancel"),
         if IsIfr(r.core.state) then ReadbackCancelIfr else ReadbackCancel)
    else (WithOwed(r, r.owed.(reminders := r.owed.reminders + 1, lastReminder := now)), Silent)
  }

  // ── Phase-driven corrections ────────────────────────────────────────────────

  predicate Applies(c: Correction, phase: FlightPhase) {
    phase in c.phases && !(c.name == "on_airborne" && IsOnGround(phase))
  }

  function FirstApplicable(cs: seq<Correction>, phase: FlightPhase): (o: Option<Correction>)
    ensures o.Some? ==> o.value in cs && Applies(o.value, phase)
    ensures o.None? ==> forall c :: c in cs ==> !Applies(c, phase)
  {
    if cs == [] then None
    else if Applies(cs[0], phase) then Some(cs[0])
    else FirstApplicable(cs[1..], phase)
  }

  function Corrected(r: Record, c: Correction): Record {
    var r1 := DropReadback(Transition(r, c.next, "auto_correction:" + c.name));
    var core := if c.next == IDLE then r1.core.(runway := "", callsign := "") else r1.core;
    r1.(core := core, correctionKey := None, correctionTimer := 0.0)
  }

  /** One more frame of an applicable correction; it fires when its delay is used up. */
  function Tick(e: Env, r: Record, c: Correction, dt: real): Record {
    var key := Some((NameOf(r.core.state, r.core.departure), c.name));
    var timer := (if key != r.correctionKey then 0.0 else r.correctionTimer) + dt;
    var r1 := r.(correctionKey := key, correctionTimer := timer);
    if timer >= c.delay * e.correctionFactor then Corrected(r1, c) else r1
  }

  /** The correction that watches this state in this phase; most states have no table at all. */
  datatype Watch = Unwatched | NoMatch | Match(c: Correction)

  function WatchOn(e: Env, core: Core, phase: FlightPhase): Watch {
    if core.state == IDLE || core.state == UNICOM_ACTIVE then Unwatched
    else
      match e.corrections(NameOf(core.state, core.departure))
      case None => Unwatched
      case Some(cs) =>
        match FirstApplicable(cs, phase)
        case None => NoMatch
        case Some(c) => Match(c)
  }

  function AutoCorrect(e: Env, r0: Record, phase: FlightPhase, dt: real, now: real): Record {
    var r := r0.(lastNow := now);
    match WatchOn(e, r.core, phase)
    case Unwatched => r
    case NoMatch => r.(correctionKey := None, correctionTimer := 0.0)
    case Match(c) => Tick(e, r, c, dt)
  }

  // ── The hooks that follow a template response ───────────────────────────────

  /** A transcript that satisfies the clearance settles it, whatever the intent was. */
  function SilentAccept(v: Verifier, r: Record, msg: Message): Record {
    if r.owed.flag && r.owed.text != "" && msg.intent != READBACK && msg.raw != ""
       && v.check(r.owed.text, msg.raw) == []
    then RbClear(r) else r
  }

  function Outstanding(ms: seq<Mismatch>, ok: set<Field>): (out: seq<Mismatch>)
    ensures forall m :: m in out <==> m in ms && m.field !in ok
  {
    if ms == [] then []
    else (if ms[0].field in ok then [] else [ms[0]]) + Outstanding(ms[1..], ok)
  }

  /** The obligations after the fields of this turn were credited and settled clearances retired. */
  function Credited(v: Verifier, o: Obligations, raw: string): Obligations {
    var ok := o.ok + v.matched(o.text, raw);
    Recache(o.(ok := ok), Unsettled(v, o.pending, ok))
  }

  /** The items still owed after this read-back turn; none means the turn ends the exchange. */
  function StillOwed(v: Verifier, o: Obligations, raw: string): seq<Mismatch> {
    var c := Credited(v, o, raw);
    if c.pending == [] then [] else Outstanding(v.check(c.text, raw), c.ok)
  }

  /** How often the outstanding text has failed, this attempt included. */
  function Attempt(d: Dialog, text: string): nat {
    (if d.failText == text then d.fails else 0) + 1
  }

  /** True when the read-back turn asks again and leaves the rest of the hooks undone. */
  predicate AsksAgain(v: Verifier, d: Dialog, raw: string) {
    && d.r.owed.flag && d.r.owed.text != ""
    && StillOwed(v, d.r.owed, raw) != []
    && Attempt(d, Credited(v, d.r.owed, raw).text) < 2
  }

  function AskAgain(v: Verifier, d: Dialog, raw: string): Dialog {
    var o := Credited(v, d.r.owed, raw);
    Dialog(d.r.(owed := o), o.text, Attempt(d, o.text))
  }

  function AskAgainText(v: Verifier, d: Dialog, raw: string): string
    requires AsksAgain(v, d, raw)
  {
    (if d.r.core.callsign == "" then "" else d.r.core.callsign + ", ")
    + StillOwed(v, d.r.owed, raw)[0].correction + "."
  }

  /** A read-back turn that ends the exchange: everything matched, or accepted on the second try. */
  function AcceptReadback(v: Verifier, d: Dialog, raw: string): Dialog {
    if d.r.owed.flag && d.r.owed.text != "" && StillOwed(v, d.r.owed, raw) != []
    then Dialog(RbClear(d.r), Credited(v, d.r.owed, raw).text, 0)
    else d.(r := RbClear(d.r))
  }

  /** Read-back bookkeeping of a turn that is not a read-back. */
  function TrackReadback(v: Verifier, r: Record, resp: Response): Record {
    if resp.requiresReadback then RbMerge(v, r, resp.text)
    else if r.owed.flag && resp.text != "" then
      if resp.next != r.core.state then RbClear(r)
      else WithOwed(r, r.owed.(lastReminder := r.lastNow, reminders := 0))
    else r
  }

  function RunwayToLock(msg: Message, ctx: Context): string {
    if msg.runway != "" then msg.runway else if ctx.activeRunway != "" then ctx.activeRunway else "28"
  }

  function LockRunway(r: Record, msg: Message, ctx: Context, next: ATCState): Record {
    if r.core.runway == "" && next != IDLE then WithCore(r, r.core.(runway := RunwayToLock(msg, ctx))) else r
  }

  function LockCallsign(r: Record, msg: Message, next: ATCState): Record {
    if r.core.callsign == "" && msg.callsign != "" && next != IDLE then
      WithCore(r, r.core.(callsign := CallsignLock.Lock(msg.callsign, r.core.reference)))
    else r
  }

  function Advance(e: Env, r: Record, msg: Message, resp: Response): Record {
    if resp.text == "" && resp.next == r.core.state then r
    else
      var r1 := Transition(r, resp.next, "process:" + e.intentKey(msg.intent));
      if resp.next == DEPARTURE_CLEARED && r.core.state != DEPARTURE_CLEARED then
        WithCore(r1, r1.core.(departure := if msg.intent == READY_FOR_DEPARTURE_VFR then CROSS_COUNTRY
                                           else DepartureType.PATTERN))
      else if r.core.state == DEPARTURE_CLEARED && resp.next != DEPARTURE_CLEARED then
        WithCore(r1, r1.core.(departure := DepartureType.PATTERN))
      else r1
  }

  function TowerOnlyTarget(e: Env, r: Record, ctx: Context): Option<ATCState> {
    if ctx.towerOnly then e.towerAdvance(NameOf(r.core.state, r.core.departure)) else None
  }

  function RecordTowerText(r: Record, text: string): Record {
    if text == "" then r else r.(gen := r.gen + 1, towerText := text)
  }

  /** Leaving the frequency, or the dialog, drops what was owed. */
  function Settle(r: Record, next: ATCState): Record {
    if next == EN_ROUTE || next == IDLE then RbClear(r) else r
  }

  /** Locks, transition and departure type, and the release of the locks on the way to IDLE. */
  function Move(e: Env, r: Record, msg: Message, ctx: Context, resp: Response): Record {
    var r1 := Advance(e, LockCallsign(LockRunway(r, msg, ctx, resp.next), msg, resp.next), msg, resp);
    if resp.next == IDLE then ReleaseLocks(r1) else r1
  }

  /** The tower-only hand-over, and the memory of what was said last. */
  function HandOver(e: Env, r: Record, ctx: Context, resp: Response): (Record, Response) {
    match TowerOnlyTarget(e, r, ctx)
    case None => (RecordTowerText(r, resp.text), resp)
    case Some(t) => (RecordTowerText(Transition(r, t, "tower_only_auto_advance"), resp.text), resp.(next := t))
  }

  /** The hooks from the read-back bookkeeping onwards, for a turn that did not ask again. */
  function Finish(e: Env, r: Record, msg: Message, ctx: Context, resp: Response): (Record, Response) {
    HandOver(e, Move(e, Settle(r, resp.next), msg, ctx, resp), ctx, resp)
  }

  /** The record on which `Finish` runs when the message is not a read-back. */
  function Tracked(v: Verifier, r: Record, msg: Message, resp: Response): Record {
    TrackReadback(v, SilentAccept(v, r, msg), resp)
  }

  function Hooks(e: Env, d: Dialog, msg: Message, ctx: Context, resp: Response): (Dialog, Response) {
    if msg.intent != READBACK then
      var (r, out) := Finish(e, Tracked(e.v, d.r, msg, resp), msg, ctx, resp);
      (d.(r := r), out)
    else if AsksAgain(e.v, d, msg.raw) then
      (AskAgain(e.v, d, msg.raw),
       Response(AskAgainText(e.v, d, msg.raw), d.r.core.state, resp.requiresReadback))
    else
      var d1 := AcceptReadback(e.v, d, msg.raw);
      var (r, out) := Finish(e, d1.r, msg, ctx, resp);
      (d1.(r := r), out)
  }

  predicate StartsDepartureCycle(msg: Message, ctx: Context) {
    ctx.onGround && msg.intent in {REQUEST_TAXI, INITIAL_CALL_GROUND, INITIAL_CALL_TOWER, INITIAL_CALL}
  }

  /** The record when the hooks begin. */
  function Heard(r: Record, msg: Message, ctx: Context, now: real): Record {
    var r1 := r.(lastNow := now);
    if StartsDepartureCycle(msg, ctx) then SetWasAirborne(r1, false) else r1
  }

  /** `process` for a message that no handler intercepts; `resp` is the filled template. */
  function Process(e: Env, d: Dialog, msg: Message, ctx: Context, resp: Response, now: real): (Dialog, Response) {
    Hooks(e, d.(r := Heard(d.r, msg, ctx, now)), msg, ctx, resp)
  }

  // ── Snapshots ───────────────────────────────────────────────────────────────

  function RestoreIfGen(r: Record, snap: Record, expected: nat): (Record, bool) {
    if r.gen != expected then (r, false) else (snap.(gen := r.gen + 1), true)
  }

  // ── Runs ────────────────────────────────────────────────────────────────────

  datatype Step =
    | DoInit | DoReset
    | DoDisregard(phase: FlightPhase, near: bool, now: real)
    | DoSetState(s: ATCState)
    | DoTransition(s: ATCState, reason: string)
    | DoDropReadback
    | DoRaiseReadback
    | DoSetWasAirborne(b: bool)
    | DoSetRunway(text: string)
    | DoSetCallsign(text: string)
    | DoClearCallsign
    | DoSetDeparture(d: DepartureType)
    | DoSetSquawk(text: string)
    | DoSetNow(now: real)
    | DoArm(text: string)
    | DoCancelReadback
    | DoSetTowerText(text: string)
    | DoRemind(now: real)
    | DoAutoCorrect(phase: FlightPhase, dt: real, now: real)
    | DoProcess(msg: Message, ctx: Context, resp: Response, now: real)
    | DoCapture
    | DoRestore(index: nat, expected: nat)

  /** The dialog together with the snapshots that guards hold. */
  datatype World = World(d: Dialog, snaps: seq<Record>)

  function StepRecord(e: Env, r: Record, s: Step): Record
    requires !s.DoProcess? && !s.DoCapture? && !s.DoRestore?
  {
    match s
    case DoInit => Init(e, r)
    case DoReset => Reset(r)
    case DoDisregard(p, near, now) => Disregard(r, p, near, now)
    case DoSetState(st) => SetState(r, st)
    case DoTransition(st, reason) => Transition(r, st, reason)
    case DoDropReadback => DropReadback(r)
    case DoRaiseReadback => RaiseReadback(r)
    case DoSetWasAirborne(b) => SetWasAirborne(r, b)
    case DoSetRunway(t) => WithCore(r, r.core.(runway := t))
    case DoSetCallsign(t) => SetCallsign(r, t)
    case DoClearCallsign => WithCore(r, r.core.(callsign := ""))
    case DoSetDeparture(d) => WithCore(r, r.core.(departure := d))
    case DoSetSquawk(t) => WithCore(r, r.core.(squawk := t))
    case DoSetNow(now) => r.(lastNow := now)
    case DoArm(t) => RbMerge(e.v, r, t)
    case DoCancelReadback => if r.owed.flag then RbClear(r) else r
    case DoSetTowerText(t) => if t == "" then r else r.(towerText := t)
    case DoRemind(now) => Remind(r, now).0
    case DoAutoCorrect(p, dt, now) => AutoCorrect(e, r, p, dt, now)
  }

  function StepWorld(e: Env, w: World, s: Step): World {
    match s
    case DoProcess(msg, ctx, resp, now) => w.(d := Process(e, w.d, msg, ctx, resp, now).0)
    case DoCapture => w.(snaps := w.snaps + [w.d.r])
    case DoRestore(i, expected) =>
      if i < |w.snaps| then w.(d := w.d.(r := RestoreIfGen(w.d.r, w.snaps[i], expected).0)) else w
    case _ => w.(d := w.d.(r := StepRecord(e, w.d.r, s)))
  }

  function Run(e: Env, w: World, steps: seq<Step>): World {
    if steps == [] then w
    else StepWorld(e, Run(e, w, steps[..|steps|-1]), steps[|steps|-1])
  }

  const START: World := World(Dialog(INITIAL, "", 0), [])
}
