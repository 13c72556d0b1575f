/** Asynchronous backend calls: worker threads, one timed lock per stage, and the callbacks that the main thread drains. */
module CallbackProtocol {

  datatype Stage = STT | LM | TTS
  datatype Outcome = Success | Failure

  /** What a request's worker is doing. `Gone` is also the phase of a request that was refused at once. */
  datatype Phase = Waiting | Calling | Finished(o: Outcome) | Leaving(o: Outcome) | Gone(o: Outcome)

  datatype Worker = Worker(stage: Stage, phase: Phase)

  datatype Callback = Callback(id: nat, outcome: Outcome)

  /** Requests are numbered in the order of acceptance. `local` is the batch that a drain is working through. */
  datatype World = World(
    workers: seq<Worker>,
    holder: map<Stage, nat>,
    active: nat,
    queue: seq<Callback>,
    local: seq<Callback>,
    delivered: seq<Callback>)

  const START: World := World([], map[], 0, [], [], [])

  /** The atomic steps, of the caller, of the workers and of the main thread. */
  datatype Step =
    | Submit(stage: Stage, ready: bool)
    | Lock(id: nat)
    | GiveUp(id: nat)
    | Return(id: nat, outcome: Outcome)
    | Enqueue(id: nat)
    | Exit(id: nat)
    | Swap
    | Deliver

  predicate Enabled(w: World, s: Step) {
    match s
    case Submit(_, _) => true
    case Lock(id) => id < |w.workers| && w.workers[id].phase.Waiting? && w.workers[id].stage !in w.holder
    case GiveUp(id) => id < |w.workers| && w.workers[id].phase.Waiting? && w.workers[id].stage in w.holder
    case Return(id, _) => id < |w.workers| && w.workers[id].phase.Calling?
    case Enqueue(id) => id < |w.workers| && w.workers[id].phase.Finished?
    case Exit(id) => id < |w.workers| && w.workers[id].phase.Leaving? && w.active > 0
    case Swap => w.queue != [] && w.local == []
    case Deliver => w.local != []
  }

  function At(w: World, id: nat, p: Phase): World
    requires id < |w.workers|
  {
    w.(workers := w.workers[id := w.workers[id].(phase := p)])
  }

  function Apply(w: World, s: Step): World
    requires Enabled(w, s)
  {
    match s
    case Submit(stage, true) => w.(workers := w.workers + [Worker(stage, Waiting)], active := w.active + 1)
    case Submit(stage, false) =>
      w.(workers := w.workers + [Worker(stage, Gone(Failure))], queue := w.queue + [Callback(|w.workers|, Failure)])
    case Lock(id) => At(w, id, Calling).(holder := w.holder[w.workers[id].stage := id])
    case GiveUp(id) => At(w, id, Finished(Failure))
    case Return(id, o) => At(w, id, Finished(o)).(holder := w.holder - {w.workers[id].stage})
    case Enqueue(id) =>
      var o := w.workers[id].phase.o;
      At(w, id, Leaving(o)).(queue := w.queue + [Callback(id, o)])
    case Exit(id) => At(w, id, Gone(w.workers[id].phase.o)).(active := w.active - 1)
    case Swap => w.(local := w.queue, queue := [])
    case Deliver => w.(local := w.local[1..], delivered := w.delivered + [w.local[0]])
  }

  // ── The manager ─────────────────────────────────────────────────────────────

  /** The shared state, changed one atomic step at a time. */
  class Manager {
    var workers: seq<Worker>
    var holder: map<Stage, nat>
    var active: nat
    var callbacks: seq<Callback>
    var local: seq<Callback>
    var delivered: seq<Callback>

    function View(): World
      reads this
    {
      World(workers, holder, active, callbacks, local, delivered)
    }

    constructor ()
      ensures View() == START
    {
      workers, holder, active := [], map[], 0;
      callbacks, local, delivered := [], [], [];
    }

    /** `transcribe_async` and its siblings: refused when no backend is ready, else a worker is spawned. */
    method SubmitRequest(stage: Stage, ready: bool) returns (id: nat)
      modifies this
      ensures View() == Apply(old(View()), Submit(stage, ready)) && id == old(|workers|)
    {
      id := |workers|;
      if !ready {
        workers := workers + [Worker(stage, Gone(Failure))];
        callbacks := callbacks + [Callback(id, Failure)];
        return;
      }
      active := active + 1;
      workers := workers + [Worker(stage, Waiting)];
    }

    /** The timed lock: taken when it is free, given up on otherwise. */
    method TryLock(id: nat) returns (owns: bool)
      requires id < |workers| && workers[id].phase.Waiting?
      modifies this
      ensures owns == Enabled(old(View()), Lock(id))
      ensures View() == Apply(old(View()), if owns then Lock(id) else GiveUp(id))
    {
      var stage := workers[id].stage;
      owns := stage !in holder;
      if owns {
        holder := holder[stage := id];
        workers := workers[id := Worker(stage, Calling)];
      } else {
        workers := workers[id := Worker(stage, Finished(Failure))];
      }
    }

    method ReturnFromBackend(id: nat, outcome: Outcome)
      requires Enabled(View(), Return(id, outcome))
      modifies this
      ensures View() == Apply(old(View()), Return(id, outcome))
    {
      holder := holder - {workers[id].stage};
      workers := workers[id := workers[id].(phase := Finished(outcome))];
    }

    method EnqueueCallback(id: nat)
      requires Enabled(View(), Enqueue(id))
      modifies this
      ensures View() == Apply(old(View()), Enqueue(id))
    {
      var o := workers[id].phase.o;
      callbacks := callbacks + [Callback(id, o)];
      workers := workers[id := workers[id].(phase := Leaving(o))];
    }

    /** The drain, when nothing interferes: the queue is taken as a whole and run in order. */
    method DrainCallbackQueue()
      requires local == []
      modifies `callbacks, `local, `delivered
      ensures callbacks == [] && local == [] && delivered == old(delivered) + old(callbacks)
    {
      local, callbacks := callbacks, [];
      while local != []
        invariant callbacks == [] && delivered + local == old(delivered) + old(callbacks)
        decreases |local|
      {
        ghost var before, rest := delivered, local;
        delivered := delivered + [local[0]];
        local := local[1..];
        assert delivered + local == before + rest;
      }
    }
  }

  // ── The invariant ───────────────────────────────────────────────────────────

  /** Everything ever enqueued, in order. */
  function Enqueued(w: World): seq<Callback> {
    w.delivered + (w.local + w.queue)
  }

  function Ids(cs: seq<Callback>): seq<nat> {
    if cs == [] then [] else Ids(cs[..|cs|-1]) + [cs[|cs|-1].id]
  }

  lemma {:induction false} IdsConcat(a: seq<Callback>, b: seq<Callback>)
    ensures Ids(a + b) == Ids(a) + Ids(b)
    decreases |b|
  {
    if b == [] {
      assert a + b == a;
    } else {
      assert (a + b)[..|a + b|-1] == a + b[..|b|-1];
      IdsConcat(a, b[..|b|-1]);
    }
  }

  /** The worker has not handed its callback over yet. */
  predicate Running(k: Worker) {
    k.phase.Waiting? || k.phase.Calling? || k.phase.Finished?
  }

  predicate Alive(k: Worker) {
    !k.phase.Gone?
  }

  function CountAlive(ks: seq<Worker>): nat {
    if ks == [] then 0 else CountAlive(ks[..|ks|-1]) + if Alive(ks[|ks|-1]) then 1 else 0
  }

  /** Every request has either a running worker or exactly one callback. */
  ghost predicate OneCallbackEach(w: World) {
    && (forall id :: 0 <= id < |w.workers| ==>
          multiset(Ids(Enqueued(w)))[id] == if Running(w.workers[id]) then 0 else 1)
    && (forall id :: id in Ids(Enqueued(w)) ==> id < |w.workers|)
  }

  /** A callback says how its request ended. */
  ghost predicate HonestCallbacks(w: World) {
    forall c :: c in Enqueued(w) ==>
      c.id < |w.workers| && !Running(w.workers[c.id]) && w.workers[c.id].phase.o == c.outcome
  }

  /** A stage's lock belongs to the worker that is inside its backend, and nobody else is. */
  ghost predicate LocksOk(w: World) {
    && (forall s :: s in w.holder ==> w.holder[s] < |w.workers| && w.workers[w.holder[s]] == Worker(s, Calling))
    && (forall id :: 0 <= id < |w.workers| && w.workers[id].phase.Calling? ==>
          w.workers[id].stage in w.holder && w.holder[w.workers[id].stage] == id)
  }

  ghost predicate Sound(w: World) {
    OneCallbackEach(w) && HonestCallbacks(w) && LocksOk(w) && w.active == CountAlive(w.workers)
  }

  // ── Every step keeps it ─────────────────────────────────────────────────────

  lemma {:induction false} AliveUpdate(ks: seq<Worker>, i: nat, k: Worker)
    requires i < |ks|
    ensures CountAlive(ks[i := k]) + (if Alive(ks[i]) then 1 else 0) == CountAlive(ks) + if Alive(k) then 1 else 0
    decreases |ks|
  {
    var init := ks[..|ks|-1];
    if i == |ks| - 1 {
      assert ks[i := k][..|ks|-1] == init;
    } else {
      assert ks[i := k][..|ks|-1] == init[i := k];
      AliveUpdate(init, i, k);
    }
  }

  lemma AliveSnoc(ks: seq<Worker>, k: Worker)
    ensures CountAlive(ks + [k]) == CountAlive(ks) + if Alive(k) then 1 else 0
  {
    assert (ks + [k])[..|ks|] == ks;
  }

  /** One more callback at the end. */
  lemma EnqueuedSnoc(w: World, v: World, c: Callback)
    requires v.delivered == w.delivered && v.local == w.local && v.queue == w.queue + [c]
    ensures Enqueued(v) == Enqueued(w) + [c] && Ids(Enqueued(v)) == Ids(Enqueued(w)) + [c.id]
  {
    assert Enqueued(v) == Enqueued(w) + [c];
    IdsConcat(Enqueued(w), [c]);
    assert [c][..0] == [];
  }

  /** The callback of request `c.id` is added when its worker stops running, or when the request is refused. */
  lemma CallbackAdded(w: World, v: World, c: Callback)
    requires OneCallbackEach(w) && HonestCallbacks(w)
    requires v.delivered == w.delivered && v.local == w.local && v.queue == w.queue + [c]
    requires c.id < |v.workers| && !Running(v.workers[c.id]) && v.workers[c.id].phase.o == c.outcome
    requires |w.workers| <= |v.workers| <= |w.workers| + 1
    requires if c.id < |w.workers| then Running(w.workers[c.id]) && |v.workers| == |w.workers| else true
    requires forall id :: 0 <= id < |w.workers| && id != c.id ==> v.workers[id] == w.workers[id]
    ensures OneCallbackEach(v) && HonestCallbacks(v)
  {
    var before := Ids(Enqueued(w));
    EnqueuedSnoc(w, v, c);
    assert multiset(before + [c.id]) == multiset(before) + multiset{c.id};
    assert c.id >= |w.workers| ==> c.id !in before;
    HonestAdded(w, v, c);
  }

  lemma HonestAdded(w: World, v: World, c: Callback)
    requires OneCallbackEach(w) && HonestCallbacks(w) && Enqueued(v) == Enqueued(w) + [c]
    requires c.id < |v.workers| && !Running(v.workers[c.id]) && v.workers[c.id].phase.o == c.outcome
    requires |w.workers| <= |v.workers| && (c.id < |w.workers| ==> Running(w.workers[c.id]))
    requires forall id :: 0 <= id < |w.workers| && id != c.id ==> v.workers[id] == w.workers[id]
    ensures HonestCallbacks(v)
  {
    forall d | d in Enqueued(v)
      ensures d.id < |v.workers| && !Running(v.workers[d.id]) && v.workers[d.id].phase.o == d.outcome
    {
      if d != c {
        assert d in Enqueued(w);
      }
    }
  }

  lemma SubmitReadyKeeps(w: World, stage: Stage)
    requires Sound(w)
    ensures Sound(Apply(w, Submit(stage, true)))
  {
    var v := w.(workers := w.workers + [Worker(stage, Waiting)], active := w.active + 1);
    AliveSnoc(w.workers, v.workers[|w.workers|]);
    WorkerAdded(w, v, Worker(stage, Waiting));
    LocksGrow(w, v, Worker(stage, Waiting));
  }

  lemma WorkerAdded(w: World, v: World, k: Worker)
    requires OneCallbackEach(w) && HonestCallbacks(w) && v.workers == w.workers + [k] && Running(k)
    requires Enqueued(v) == Enqueued(w)
    ensures OneCallbackEach(v) && HonestCallbacks(v)
  {
    assert |w.workers| !in Ids(Enqueued(w));
  }

  lemma SubmitRefusedKeeps(w: World, stage: Stage)
    requires Sound(w)
    ensures Sound(Apply(w, Submit(stage, false)))
  {
    var v := w.(workers := w.workers + [Worker(stage, Gone(Failure))],
                queue := w.queue + [Callback(|w.workers|, Failure)]);
    AliveSnoc(w.workers, v.workers[|w.workers|]);
    CallbackAdded(w, v, Callback(|w.workers|, Failure));
    LocksGrow(w, v, Worker(stage, Gone(Failure)));
  }

  lemma LocksGrow(w: World, v: World, k: Worker)
    requires LocksOk(w) && v.workers == w.workers + [k] && v.holder == w.holder && !k.phase.Calling?
    ensures LocksOk(v)
  {}

  /** A worker changes phase without touching the callbacks. */
  lemma WorkerMoves(w: World, v: World, id: nat, p: Phase)
    requires Sound(w) && id < |w.workers| && v.workers == w.workers[id := w.workers[id].(phase := p)]
    requires Enqueued(v) == Enqueued(w)
    requires Running(w.workers[id]) == Running(v.workers[id])
    requires !Running(v.workers[id]) ==> p.o == w.workers[id].phase.o
    ensures OneCallbackEach(v) && HonestCallbacks(v)
    ensures CountAlive(v.workers) + (if Alive(w.workers[id]) then 1 else 0)
            == CountAlive(w.workers) + if Alive(v.workers[id]) then 1 else 0
  {
    AliveUpdate(w.workers, id, v.workers[id]);
  }

  lemma LockKeeps(w: World, id: nat)
    requires Sound(w) && Enabled(w, Lock(id))
    ensures Sound(Apply(w, Lock(id)))
  {
    WorkerMoves(w, Apply(w, Lock(id)), id, Calling);
  }

  lemma GiveUpKeeps(w: World, id: nat)
    requires Sound(w) && Enabled(w, GiveUp(id))
    ensures Sound(Apply(w, GiveUp(id)))
  {
    WorkerMoves(w, Apply(w, GiveUp(id)), id, Finished(Failure));
  }

  lemma ReturnKeeps(w: World, id: nat, o: Outcome)
    requires Sound(w) && Enabled(w, Return(id, o))
    ensures Sound(Apply(w, Return(id, o)))
  {
    WorkerMoves(w, Apply(w, Return(id, o)), id, Finished(o));
  }

  lemma EnqueueKeeps(w: World, id: nat)
    requires Sound(w) && Enabled(w, Enqueue(id))
    ensures Sound(Apply(w, Enqueue(id)))
  {
    var v := Apply(w, Enqueue(id));
    CallbackAdded(w, v, Callback(id, w.workers[id].phase.o));
    AliveUpdate(w.workers, id, v.workers[id]);
  }

  lemma ExitKeeps(w: World, id: nat)
    requires Sound(w) && Enabled(w, Exit(id))
    ensures Sound(Apply(w, Exit(id)))
  {
    WorkerMoves(w, Apply(w, Exit(id)), id, Gone(w.workers[id].phase.o));
  }

  lemma DrainKeeps(w: World, s: Step)
    requires Sound(w) && (s == Swap || s == Deliver) && Enabled(w, s)
    ensures Sound(Apply(w, s)) && Enqueued(Apply(w, s)) == Enqueued(w)
  {
    DrainMoves(w, s);
  }

  lemma DrainMoves(w: World, s: Step)
    requires (s == Swap || s == Deliver) && Enabled(w, s)
    ensures Enqueued(Apply(w, s)) == Enqueued(w)
  {}

  lemma StepKeeps(w: World, s: Step)
    requires Sound(w) && Enabled(w, s)
    ensures Sound(Apply(w, s))
  {
    match s
    case Submit(stage, true) => SubmitReadyKeeps(w, stage);
    case Submit(stage, false) => SubmitRefusedKeeps(w, stage);
    case Lock(id) => LockKeeps(w, id);
    case GiveUp(id) => GiveUpKeeps(w, id);
    case Return(id, o) => ReturnKeeps(w, id, o);
    case Enqueue(id) => EnqueueKeeps(w, id);
    case Exit(id) => ExitKeeps(w, id);
    case _ => DrainKeeps(w, s);
  }

  // ── Interleavings ───────────────────────────────────────────────────────────

  predicate IsRun(w: World, steps: seq<Step>)
    decreases |steps|
  {
    steps != [] ==> Enabled(w, steps[0]) && IsRun(Apply(w, steps[0]), steps[1..])
  }

  function After(w: World, steps: seq<Step>): World
    requires IsRun(w, steps)
    decreases |steps|
  {
    if steps == [] then w else After(Apply(w, steps[0]), steps[1..])
  }

  lemma {:induction false} RunSound(w: World, steps: seq<Step>)
    requires Sound(w) && IsRun(w, steps)
    ensures Sound(After(w, steps))
    decreases |steps|
  {
    if steps != [] {
      StepKeeps(w, steps[0]);
      RunSound(Apply(w, steps[0]), steps[1..]);
    }
  }

  lemma StartSound()
    ensures Sound(START)
  {}

  function RunningIds(ks: seq<Worker>): seq<nat> {
    if ks == [] then [] else RunningIds(ks[..|ks|-1]) + if Running(ks[|ks|-1]) then [|ks|-1] else []
  }

  function UpTo(n: nat): seq<nat> {
    if n == 0 then [] else UpTo(n - 1) + [n - 1]
  }

  lemma {:induction false} CountRunning(ks: seq<Worker>, id: nat)
    ensures multiset(RunningIds(ks))[id] == if id < |ks| && Running(ks[id]) then 1 else 0
    decreases |ks|
  {
    if ks != [] {
      var init := ks[..|ks|-1];
      CountRunning(init, id);
      CountSplit(RunningIds(init), if Running(ks[|ks|-1]) then [|ks|-1] else [], id);
    }
  }

  lemma CountSplit(a: seq<nat>, b: seq<nat>, id: nat)
    ensures multiset(a + b)[id] == multiset(a)[id] + multiset(b)[id]
  {}

  lemma {:induction false} CountUpTo(n: nat, id: nat)
    ensures multiset(UpTo(n))[id] == if id < n then 1 else 0
    decreases n
  {
    if n > 0 {
      CountUpTo(n - 1, id);
    }
  }

  /** In every interleaving: accepted = running + queued + delivered, as multisets. */
  lemma NothingLostOrDoubled(steps: seq<Step>)
    requires IsRun(START, steps)
    ensures var w := After(START, steps);
            multiset(UpTo(|w.workers|))
            == multiset(RunningIds(w.workers)) + multiset(Ids(w.delivered + (w.local + w.queue)))
  {
    StartSound();
    RunSound(START, steps);
    var w := After(START, steps);
    var ids := multiset(Ids(Enqueued(w)));
    forall id: nat
      ensures multiset(UpTo(|w.workers|))[id] == multiset(RunningIds(w.workers))[id] + ids[id]
    {
      CountRunning(w.workers, id);
      CountUpTo(|w.workers|, id);
      if id >= |w.workers| {
        assert id !in Ids(Enqueued(w));
      }
    }
  }

  /** Never are two workers inside the backend of one stage. */
  lemma OneCallPerStage(steps: seq<Step>, i: nat, j: nat)
    requires IsRun(START, steps)
    requires i < j < |After(START, steps).workers|
    ensures var w := After(START, steps);
            !(w.workers[i].phase.Calling? && w.workers[j].phase.Calling? && w.workers[i].stage == w.workers[j].stage)
  {
    StartSound();
    RunSound(START, steps);
  }

  lemma StepInOrder(w: World, s: Step)
    requires Enabled(w, s)
    ensures Enqueued(w) <= Enqueued(Apply(w, s)) && w.delivered <= Apply(w, s).delivered
  {
    match s
    case Enqueue(id) => EnqueuedSnoc(w, Apply(w, s), Callback(id, w.workers[id].phase.o));
    case Submit(_, false) => EnqueuedSnoc(w, Apply(w, s), Callback(|w.workers|, Failure));
    case Swap => DrainMoves(w, s);
    case Deliver => DrainMoves(w, s);
    case _ => assert Enqueued(Apply(w, s)) == Enqueued(w);
  }

  /** Callbacks are run in the order in which they were enqueued. */
  lemma {:induction false} DeliveredInOrder(w: World, steps: seq<Step>)
    requires IsRun(w, steps)
    ensures Enqueued(w) <= Enqueued(After(w, steps)) && w.delivered <= After(w, steps).delivered
    ensures After(w, steps).delivered <= Enqueued(After(w, steps))
    decreases |steps|
  {
    if steps != [] {
      StepInOrder(w, steps[0]);
      DeliveredInOrder(Apply(w, steps[0]), steps[1..]);
    }
  }

  // ── Every request is answered ───────────────────────────────────────────────

  function Weight(p: Phase): nat {
    match p case Waiting => 6 case Calling => 5 case Finished(_) => 4 case Leaving(_) => 1 case Gone(_) => 0
  }

  function Work(ks: seq<Worker>): nat {
    if ks == [] then 0 else Work(ks[..|ks|-1]) + Weight(ks[|ks|-1].phase)
  }

  /** The steps that are left when nothing new is submitted. */
  function Remaining(w: World): nat {
    Work(w.workers) + 2 * |w.queue| + |w.local|
  }

  lemma {:induction false} WorkUpdate(ks: seq<Worker>, i: nat, k: Worker)
    requires i < |ks|
    ensures Work(ks[i := k]) + Weight(ks[i].phase) == Work(ks) + Weight(k.phase)
    decreases |ks|
  {
    var init := ks[..|ks|-1];
    if i == |ks| - 1 {
      assert ks[i := k][..|ks|-1] == init;
    } else {
      assert ks[i := k][..|ks|-1] == init[i := k];
      WorkUpdate(init, i, k);
    }
  }

  lemma StepWorks(w: World, s: Step)
    requires Enabled(w, s) && !s.Submit?
    ensures Remaining(Apply(w, s)) < Remaining(w)
  {
    if s.Lock? || s.GiveUp? || s.Return? || s.Enqueue? || s.Exit? {
      WorkUpdate(w.workers, s.id, Apply(w, s).workers[s.id]);
    }
  }

  predicate NoneSubmitted(steps: seq<Step>) {
    forall i :: 0 <= i < |steps| ==> !steps[i].Submit?
  }

  /** Without new requests every interleaving ends. */
  lemma {:induction false} RunsEnd(w: World, steps: seq<Step>)
    requires IsRun(w, steps) && NoneSubmitted(steps)
    ensures |steps| + Remaining(After(w, steps)) <= Remaining(w)
    decreases |steps|
  {
    if steps != [] {
      StepWorks(w, steps[0]);
      RunsEnd(Apply(w, steps[0]), steps[1..]);
    }
  }

  lemma {:induction false} IdleWorkers(ks: seq<Worker>)
    requires Work(ks) == 0
    ensures forall i :: 0 <= i < |ks| ==> ks[i].phase.Gone?
    decreases |ks|
  {
    if ks != [] {
      IdleWorkers(ks[..|ks|-1]);
    }
  }

  lemma {:induction false} BusyWorker(ks: seq<Worker>) returns (i: nat)
    requires Work(ks) > 0
    ensures i < |ks| && !ks[i].phase.Gone?
    decreases |ks|
  {
    if Weight(ks[|ks|-1].phase) > 0 {
      i := |ks| - 1;
    } else {
      i := BusyWorker(ks[..|ks|-1]);
    }
  }

  lemma {:induction false} SomeAlive(ks: seq<Worker>, i: nat)
    requires i < |ks| && Alive(ks[i])
    ensures CountAlive(ks) > 0
    decreases |ks|
  {
    if i < |ks| - 1 {
      SomeAlive(ks[..|ks|-1], i);
    }
  }

  /** Nobody waits for a lock in vain: it is free, or its holder is inside the backend and frees it by returning. */
  lemma LockComesFree(w: World, id: nat, o: Outcome)
    requires Sound(w) && id < |w.workers| && w.workers[id].phase.Waiting?
    ensures var stage := w.workers[id].stage;
            if stage !in w.holder then Enabled(w, Lock(id))
            else && Enabled(w, GiveUp(id))
                 && Enabled(w, Return(w.holder[stage], o)) && Enabled(Apply(w, Return(w.holder[stage], o)), Lock(id))
  {}

  /** As long as something is left, somebody can move, without any new request and without anybody giving up. */
  lemma SomebodyCanMove(w: World) returns (s: Step)
    requires Sound(w) && Remaining(w) > 0
    ensures Enabled(w, s) && !s.Submit? && !s.GiveUp?
  {
    if w.local != [] {
      s := Deliver;
    } else if w.queue != [] {
      s := Swap;
    } else {
      var i := BusyWorker(w.workers);
      SomeAlive(w.workers, i);
      match w.workers[i].phase
      case Waiting =>
        LockComesFree(w, i, Failure);
        s := if w.workers[i].stage in w.holder then Return(w.holder[w.workers[i].stage], Failure) else Lock(i);
      case Calling => s := Return(i, Failure);
      case Finished(_) => s := Enqueue(i);
      case Leaving(_) => s := Exit(i);
    }
  }

  /** When nothing is left, every accepted request had exactly one callback, with its own outcome. */
  lemma EveryRequestAnsweredOnce(steps: seq<Step>)
    requires IsRun(START, steps) && Remaining(After(START, steps)) == 0
    ensures var w := After(START, steps);
            && multiset(Ids(w.delivered)) == multiset(UpTo(|w.workers|)) && w.active == 0
            && forall c :: c in w.delivered ==> c.id < |w.workers| && w.workers[c.id].phase == Gone(c.outcome)
  {
    StartSound();
    RunSound(START, steps);
    NothingLostOrDoubled(steps);
    var w := After(START, steps);
    IdleWorkers(w.workers);
    NobodyRuns(w.workers);
    assert w.delivered + (w.local + w.queue) == w.delivered;
  }

  lemma {:induction false} NobodyRuns(ks: seq<Worker>)
    requires forall i :: 0 <= i < |ks| ==> ks[i].phase.Gone?
    ensures RunningIds(ks) == [] && CountAlive(ks) == 0
    decreases |ks|
  {
    if ks != [] {
      NobodyRuns(ks[..|ks|-1]);
    }
  }

  /** How a request has ended, once it has. */
  predicate Ended(w: World, id: nat, o: Outcome) {
    id < |w.workers| && !w.workers[id].phase.Waiting? && !w.workers[id].phase.Calling? && w.workers[id].phase.o == o
  }

  lemma EndedForGood(w: World, s: Step, id: nat, o: Outcome)
    requires Enabled(w, s) && Ended(w, id, o)
    ensures Ended(Apply(w, s), id, o)
  {}

  lemma {:induction false} EndedAfterRun(w: World, id: nat, o: Outcome, steps: seq<Step>)
    requires Sound(w) && Ended(w, id, o) && IsRun(w, steps)
    ensures Sound(After(w, steps)) && Ended(After(w, steps), id, o)
    decreases |steps|
  {
    if steps != [] {
      StepKeeps(w, steps[0]);
      EndedForGood(w, steps[0], id, o);
      EndedAfterRun(Apply(w, steps[0]), id, o, steps[1..]);
    }
  }

  /** A request that gives up on its lock is answered with failure, whatever happens then; and once nothing is left
      it was answered, once. */
  lemma GivenUpIsFailure(w: World, id: nat, steps: seq<Step>)
    requires Sound(w) && Enabled(w, GiveUp(id)) && IsRun(Apply(w, GiveUp(id)), steps)
    ensures var last := After(Apply(w, GiveUp(id)), steps);
            && (forall c :: c in last.delivered && c.id == id ==> c.outcome == Failure)
            && (Remaining(last) == 0 ==> multiset(Ids(last.delivered))[id] == 1 && Callback(id, Failure) in last.delivered)
  {
    GiveUpKeeps(w, id);
    EndedAfterRun(Apply(w, GiveUp(id)), id, Failure, steps);
    var last := After(Apply(w, GiveUp(id)), steps);
    assert forall c :: c in last.delivered ==> c in Enqueued(last);
    if Remaining(last) == 0 {
      IdleWorkers(last.workers);
      assert Enqueued(last) == last.delivered;
      assert multiset(Ids(last.delivered))[id] == 1;
      IdsOf(last.delivered, id);
    }
  }

  /** An id among the ids is the id of a callback. */
  lemma {:induction false} IdsOf(cs: seq<Callback>, id: nat)
    requires id in Ids(cs)
    ensures exists c :: c in cs && c.id == id
    decreases |cs|
  {
    var init := cs[..|cs|-1];
    if cs[|cs|-1].id == id {
      assert cs[|cs|-1] in cs;
    } else {
      IdsOf(init, id);
      var c :| c in init && c.id == id;
      assert c in cs;
    }
  }
}
