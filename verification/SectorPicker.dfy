/** Which controller a flight is handed to next. */
module SectorPicker {
  import opened Options

  datatype Role = Delivery | Ground | Tower | Tracon | Ctr

  datatype Controller = Controller(role: Role, freqs: seq<nat>, floor: int, ceiling: int, facility: string)

  const UNBOUNDED := 999999

  function CeilingOf(c: Controller): int {
    if c.ceiling > 0 then c.ceiling else UNBOUNDED
  }

  /** A list entry that can be chosen: present, with a frequency that was not visited, of the right role. */
  predicate Eligible(o: Option<Controller>, visited: seq<nat>) {
    o.Some? && o.value.freqs != [] && o.value.freqs[0] !in visited
    && (o.value.role == Tracon || o.value.role == Ctr)
  }

  // ── The orders ──────────────────────────────────────────────────────────────

  /** TRACON before CTR, then the higher floor. */
  predicate HigherFloor(a: Controller, b: Controller) {
    if (a.role == Tracon) != (b.role == Tracon) then a.role == Tracon else a.floor > b.floor
  }

  /** `more_terminal` on two controllers: then the lower ceiling. */
  predicate MoreTerminal(a: Controller, b: Controller) {
    if (a.role == Tracon) != (b.role == Tracon) then a.role == Tracon
    else if a.floor != b.floor then a.floor > b.floor
    else CeilingOf(a) < CeilingOf(b)
  }

  /** `more_terminal` with its null cases. */
  predicate MoreTerminalOrNone(a: Option<Controller>, b: Option<Controller>) {
    a.Some? && (b.None? || MoreTerminal(a.value, b.value))
  }

  /** The order of `pick_next_approach`: then the facility nearer to the destination. */
  predicate BetterApproach(dist: Controller -> real, a: Controller, b: Controller) {
    if MoreTerminal(a, b) || MoreTerminal(b, a) then MoreTerminal(a, b) else dist(a) < dist(b)
  }

  type Order = (Controller, Controller) -> bool

  ghost predicate StrictWeak<T(!new)>(less: (T, T) -> bool) {
    && (forall a :: !less(a, a))
    && (forall a, b, c :: less(a, b) && less(b, c) ==> less(a, c))
    && (forall a, b, c :: less(a, c) ==> less(a, b) || less(b, c))
  }

  lemma MoreTerminalIsStrictWeak()
    ensures StrictWeak(MoreTerminalOrNone) && StrictWeak(MoreTerminal)
  {}

  lemma BetterApproachIsStrictWeak(dist: Controller -> real)
    ensures StrictWeak((a, b) => BetterApproach(dist, a, b))
  {}

  // ── The scan ────────────────────────────────────────────────────────────────

  function Pick(better: Order, cs: seq<Option<Controller>>, visited: seq<nat>): Option<Controller> {
    if cs == [] then None
    else
      var best, o := Pick(better, cs[..|cs|-1], visited), cs[|cs|-1];
      if Eligible(o, visited) && (best.None? || better(o.value, best.value)) then o else best
  }

  /** The choice is eligible, no eligible controller is better, and there is one exactly when one is eligible. */
  lemma {:induction false} PickIsBest(better: Order, cs: seq<Option<Controller>>, visited: seq<nat>)
    requires StrictWeak(better)
    ensures var p := Pick(better, cs, visited);
            && (p.None? <==> forall o :: o in cs ==> !Eligible(o, visited))
            && (p.Some? ==> p in cs && Eligible(p, visited))
            && (p.Some? ==> forall o :: o in cs && Eligible(o, visited) ==> !better(o.value, p.value))
    decreases |cs|
  {
    if cs != [] {
      var init, o := cs[..|cs|-1], cs[|cs|-1];
      PickIsBest(better, init, visited);
      assert cs == init + [o];
    }
  }

  method PickNext(cs: seq<Option<Controller>>, visited: seq<nat>) returns (best: Option<Controller>)
    ensures best == Pick(HigherFloor, cs, visited)
  {
    best := None;
    for i := 0 to |cs|
      invariant best == Pick(HigherFloor, cs[..i], visited)
      invariant best.Some? ==> best.value.role == Tracon || best.value.role == Ctr
    {
      assert cs[..i+1][..i] == cs[..i];
      var o := cs[i];
      if o.None? || o.value.freqs == [] || o.value.freqs[0] in visited {
        continue;
      }
      var c := o.value;
      if c.role == Tracon {
        if best.None? || best.value.role != Tracon || c.floor > best.value.floor {
          best := o;
        }
      } else if c.role == Ctr {
        if best.None? || (best.value.role != Tracon && c.floor > best.value.floor) {
          best := o;
        }
      }
    }
    assert cs[..|cs|] == cs;
  }

  method PickNextApproach(dist: Controller -> real, cs: seq<Option<Controller>>, visited: seq<nat>)
    returns (best: Option<Controller>)
    ensures best == Pick((a, b) => BetterApproach(dist, a, b), cs, visited)
  {
    ghost var order: Order := (a, b) => BetterApproach(dist, a, b);
    best := None;
    for i := 0 to |cs|
      invariant best == Pick(order, cs[..i], visited)
    {
      assert cs[..i+1][..i] == cs[..i];
      var o := cs[i];
      if !Eligible(o, visited) {
        continue;
      }
      if best.None? {
        best := o;
        continue;
      }
      var c, b := o.value, best.value;
      var better;
      if (c.role == Tracon) != (b.role == Tracon) {
        better := c.role == Tracon;
      } else if c.floor != b.floor {
        better := c.floor > b.floor;
      } else if CeilingOf(c) != CeilingOf(b) {
        better := CeilingOf(c) < CeilingOf(b);
      } else {
        better := dist(c) < dist(b);
      }
      if better {
        best := o;
      }
    }
    assert cs[..|cs|] == cs;
  }

  lemma HigherFloorIsStrictWeak()
    ensures StrictWeak(HigherFloor)
  {}

  /** The two pickers choose the same role class and the same floor. */
  lemma PickersAgree(dist: Controller -> real, cs: seq<Option<Controller>>, visited: seq<nat>)
    ensures var a, b := Pick(HigherFloor, cs, visited), Pick((a, b) => BetterApproach(dist, a, b), cs, visited);
            && a.Some? == b.Some?
            && (a.Some? ==> (a.value.role == Tracon) == (b.value.role == Tracon) && a.value.floor == b.value.floor)
  {
    HigherFloorIsStrictWeak();
    BetterApproachIsStrictWeak(dist);
    PickIsBest(HigherFloor, cs, visited);
    PickIsBest((a, b) => BetterApproach(dist, a, b), cs, visited);
  }

  // ── A chain of handoffs ─────────────────────────────────────────────────────

  /** The frequencies that a flight is sent to, sector after sector, each pick being recorded as visited. */
  function Chain(better: Order, sectors: seq<seq<Option<Controller>>>, visited: seq<nat>): seq<nat>
    decreases |sectors|
  {
    if sectors == [] then []
    else
      var p := Pick(better, sectors[0], visited);
      if p.None? || p.value.freqs == [] then Chain(better, sectors[1..], visited)
      else [p.value.freqs[0]] + Chain(better, sectors[1..], visited + [p.value.freqs[0]])
  }

  /** The frequencies differ from each other and from those visited. */
  predicate AllNew(fs: seq<nat>, visited: seq<nat>) {
    && (forall i :: 0 <= i < |fs| ==> fs[i] !in visited)
    && (forall i, j :: 0 <= i < j < |fs| ==> fs[i] != fs[j])
  }

  lemma OneMore(f: nat, rest: seq<nat>, visited: seq<nat>)
    requires f !in visited && AllNew(rest, visited + [f])
    ensures AllNew([f] + rest, visited)
  {
    forall i | 0 <= i < |rest|
      ensures rest[i] !in visited && rest[i] != f
    {
      assert rest[i] !in visited + [f];
    }
  }

  /** A flight is never sent back to a frequency. */
  lemma {:induction false} ChainNeverRepeats(better: Order, sectors: seq<seq<Option<Controller>>>, visited: seq<nat>)
    requires StrictWeak(better)
    ensures AllNew(Chain(better, sectors, visited), visited)
    decreases |sectors|
  {
    if sectors != [] {
      var p := Pick(better, sectors[0], visited);
      PickIsBest(better, sectors[0], visited);
      if p.None? || p.value.freqs == [] {
        ChainNeverRepeats(better, sectors[1..], visited);
      } else {
        var f := p.value.freqs[0];
        var rest := Chain(better, sectors[1..], visited + [f]);
        ChainNeverRepeats(better, sectors[1..], visited + [f]);
        OneMore(f, rest, visited);
      }
    }
  }
}
