/** The place of the user's aircraft among the traffic on final. */
module LandingSequence {
  import opened Options

  /** A target: on final or not, its distance to the threshold, and whether it stands on the runway. */
  datatype Target = Target(onFinal: bool, distance: real, onRunway: bool)

  datatype Final = Final(distance: real, index: nat)

  datatype SequenceResult = SequenceResult(position: nat, follow: Option<nat>, occupant: Option<nat>)

  predicate Before(a: Final, b: Final) {
    if a.distance != b.distance then a.distance < b.distance else a.index < b.index
  }

  /** The targets on final, in the order of the list. */
  function Finals(ts: seq<Target>): (fs: seq<Final>)
    ensures forall f :: f in fs ==> f.index < |ts| && ts[f.index].onFinal && ts[f.index].distance == f.distance
    ensures forall i :: 0 <= i < |ts| && ts[i].onFinal ==> Final(ts[i].distance, i) in fs
  {
    if ts == [] then []
    else
      var init, t := ts[..|ts|-1], ts[|ts|-1];
      Finals(init) + if t.onFinal then [Final(t.distance, |ts|-1)] else []
  }

  predicate Sorted(fs: seq<Final>) {
    forall i, j :: 0 <= i < j < |fs| ==> !Before(fs[j], fs[i])
  }

  function CountWithin(fs: seq<Final>, limit: real): nat {
    if fs == [] then 0 else CountWithin(fs[..|fs|-1], limit) + if fs[|fs|-1].distance <= limit then 1 else 0
  }

  lemma {:induction false} CountConcat(a: seq<Final>, b: seq<Final>, limit: real)
    ensures CountWithin(a + b, limit) == CountWithin(a, limit) + CountWithin(b, limit)
    decreases |b|
  {
    if b == [] {
      assert a + b == a;
    } else {
      assert (a + b)[..|a + b|-1] == a + b[..|b|-1];
      CountConcat(a, b[..|b|-1], limit);
    }
  }

  // ── Sorting ─────────────────────────────────────────────────────────────────

  lemma InsertedCount(a: seq<Final>, f: Final, b: seq<Final>, limit: real)
    ensures CountWithin(a + [f] + b, limit) == CountWithin(a + b, limit) + if f.distance <= limit then 1 else 0
  {
    CountConcat(a + [f], b, limit);
    CountConcat(a, [f], limit);
    CountConcat(a, b, limit);
    assert [f][..0] == [];
  }

  lemma InsertedSorted(a: seq<Final>, f: Final, b: seq<Final>)
    requires Sorted(a + b)
    requires a != [] ==> !Before(f, a[|a|-1])
    requires forall j :: 0 <= j < |b| ==> Before(f, b[j])
    ensures Sorted(a + [f] + b) && multiset(a + [f] + b) == multiset(a + b) + multiset{f}
  {
    var out, fs := a + [f] + b, a + b;
    forall i, j | 0 <= i < j < |out|
      ensures !Before(out[j], out[i])
    {
      if i != |a| && j != |a| {
        var i1, j1 := (if i < |a| then i else i - 1), (if j < |a| then j else j - 1);
        assert out[i] == fs[i1] && out[j] == fs[j1];
      } else if j == |a| {
        assert i < |a| - 1 ==> !Before(fs[|a|-1], fs[i]);
      }
    }
  }

  method Insert(fs: seq<Final>, f: Final, ghost limit: real) returns (out: seq<Final>)
    requires Sorted(fs)
    ensures Sorted(out) && multiset(out) == multiset(fs) + multiset{f}
    ensures CountWithin(out, limit) == CountWithin(fs, limit) + if f.distance <= limit then 1 else 0
  {
    var i := |fs|;
    while i > 0 && Before(f, fs[i-1])
      invariant 0 <= i <= |fs|
      invariant forall j :: i <= j < |fs| ==> Before(f, fs[j])
    {
      i := i - 1;
    }
    out := fs[..i] + [f] + fs[i..];
    assert fs == fs[..i] + fs[i..];
    InsertedSorted(fs[..i], f, fs[i..]);
    InsertedCount(fs[..i], f, fs[i..], limit);
  }

  lemma CountSnoc(fs: seq<Final>, i: nat, limit: real)
    requires i < |fs|
    ensures multiset(fs[..i+1]) == multiset(fs[..i]) + multiset{fs[i]}
    ensures CountWithin(fs[..i+1], limit) == CountWithin(fs[..i], limit) + if fs[i].distance <= limit then 1 else 0
  {
    assert fs[..i+1] == fs[..i] + [fs[i]] && fs[..i+1][..i] == fs[..i];
  }

  method SortFinals(fs: seq<Final>, ghost limit: real) returns (out: seq<Final>)
    ensures Sorted(out) && multiset(out) == multiset(fs)
    ensures CountWithin(out, limit) == CountWithin(fs, limit)
  {
    out := [];
    for i := 0 to |fs|
      invariant Sorted(out) && multiset(out) == multiset(fs[..i])
      invariant CountWithin(out, limit) == CountWithin(fs[..i], limit)
    {
      CountSnoc(fs, i, limit);
      out := Insert(out, fs[i], limit);
    }
    assert fs[..|fs|] == fs;
  }

  /** In a sorted list those within the limit come first. */
  lemma {:induction false} WithinComeFirst(fs: seq<Final>, limit: real, k: nat)
    requires k <= |fs| && (forall i :: 0 <= i < k ==> fs[i].distance <= limit)
    requires k < |fs| ==> fs[k].distance > limit
    requires Sorted(fs)
    ensures CountWithin(fs, limit) == k
    decreases |fs|
  {
    if fs != [] {
      var init := fs[..|fs|-1];
      if k == |fs| {
        WithinComeFirst(init, limit, k - 1);
      } else {
        assert fs[|fs|-1].distance > limit by {
          assert k < |fs| - 1 ==> !Before(fs[|fs|-1], fs[k]);
        }
        WithinComeFirst(init, limit, k);
      }
    }
  }

  // ── The sequence ────────────────────────────────────────────────────────────

  /** Target `i` is on final and no farther from the threshold than the user. */
  predicate Ahead(ts: seq<Target>, limit: real, i: nat) {
    i < |ts| && ts[i].onFinal && ts[i].distance <= limit
  }

  function CountAhead(ts: seq<Target>, limit: real): nat {
    if ts == [] then 0
    else CountAhead(ts[..|ts|-1], limit) + if ts[|ts|-1].onFinal && ts[|ts|-1].distance <= limit then 1 else 0
  }

  lemma {:induction false} CountFinals(ts: seq<Target>, limit: real)
    ensures CountWithin(Finals(ts), limit) == CountAhead(ts, limit)
    decreases |ts|
  {
    if ts != [] {
      var init, t := ts[..|ts|-1], ts[|ts|-1];
      CountFinals(init, limit);
      var last := if t.onFinal then [Final(t.distance, |ts|-1)] else [];
      CountConcat(Finals(init), last, limit);
      assert t.onFinal ==> last[..0] == [];
    }
  }

  /** Nobody who is ahead of the user comes after target `k`, the later in the list of two at the same distance. */
  ghost predicate LastAhead(ts: seq<Target>, limit: real, k: nat) {
    Ahead(ts, limit, k)
    && forall i: nat :: Ahead(ts, limit, i) ==> !Before(Final(ts[k].distance, k), Final(ts[i].distance, i))
  }

  predicate FirstOnRunway(ts: seq<Target>, k: nat) {
    k < |ts| && ts[k].onRunway && forall i :: 0 <= i < k ==> !ts[i].onRunway
  }

  method FindOccupant(ts: seq<Target>) returns (occupant: Option<nat>)
    ensures occupant.None? ==> forall i :: 0 <= i < |ts| ==> !ts[i].onRunway
    ensures occupant.Some? ==> FirstOnRunway(ts, occupant.value)
  {
    occupant := None;
    for i := 0 to |ts|
      invariant occupant.None? && forall j :: 0 <= j < i ==> !ts[j].onRunway
    {
      if ts[i].onRunway {
        return Some(i);
      }
    }
  }

  method CollectFinals(ts: seq<Target>) returns (finals: seq<Final>)
    ensures finals == Finals(ts)
  {
    finals := [];
    for i := 0 to |ts|
      invariant finals == Finals(ts[..i])
    {
      assert ts[..i+1][..i] == ts[..i];
      if ts[i].onFinal {
        finals := finals + [Final(ts[i].distance, i)];
      }
    }
    assert ts[..|ts|] == ts;
  }

  /** Sorting and inserting gives what counting says: one more than the targets ahead, behind the farthest of them;
      and the first target on the runway. */
  method ComputeLandingSequence(ts: seq<Target>, user: real) returns (out: SequenceResult)
    ensures out.position == 1 + CountAhead(ts, user)
    ensures out.follow.None? ==> CountAhead(ts, user) == 0 && forall i: nat :: !Ahead(ts, user, i)
    ensures out.follow.Some? ==> LastAhead(ts, user, out.follow.value)
    ensures out.occupant.None? ==> forall i :: 0 <= i < |ts| ==> !ts[i].onRunway
    ensures out.occupant.Some? ==> FirstOnRunway(ts, out.occupant.value)
  {
    var finals := CollectFinals(ts);
    var sorted := SortFinals(finals, user);
    var userIndex := 0;
    while userIndex < |sorted| && sorted[userIndex].distance <= user
      invariant 0 <= userIndex <= |sorted| && forall i :: 0 <= i < userIndex ==> sorted[i].distance <= user
    {
      userIndex := userIndex + 1;
    }
    WithinComeFirst(sorted, user, userIndex);
    CountFinals(ts, user);
    FarthestAhead(ts, user, sorted, userIndex);
    var occupant := FindOccupant(ts);
    out := SequenceResult(userIndex + 1, if userIndex > 0 then Some(sorted[userIndex-1].index) else None, occupant);
  }

  lemma AheadIsSorted(ts: seq<Target>, user: real, sorted: seq<Final>, k: nat, i: nat)
    requires Sorted(sorted) && multiset(sorted) == multiset(Finals(ts)) && k <= |sorted|
    requires k < |sorted| ==> sorted[k].distance > user
    requires Ahead(ts, user, i)
    ensures k > 0 && !Before(sorted[k-1], Final(ts[i].distance, i))
  {
    var f := Final(ts[i].distance, i);
    assert f in Finals(ts);
    assert f in multiset(Finals(ts));
    assert f in multiset(sorted);
    var j :| 0 <= j < |sorted| && sorted[j] == f;
    WithinIsBefore(sorted, user, k, j);
  }

  /** An entry within the limit stands before the first one beyond it. */
  lemma WithinIsBefore(sorted: seq<Final>, user: real, k: nat, j: nat)
    requires Sorted(sorted) && k <= |sorted| && j < |sorted| && sorted[j].distance <= user
    requires k < |sorted| ==> sorted[k].distance > user
    ensures j < k && !Before(sorted[k-1], sorted[j])
  {}

  lemma FarthestAhead(ts: seq<Target>, user: real, sorted: seq<Final>, k: nat)
    requires Sorted(sorted) && multiset(sorted) == multiset(Finals(ts)) && k <= |sorted|
    requires forall i :: 0 <= i < k ==> sorted[i].distance <= user
    requires k < |sorted| ==> sorted[k].distance > user
    ensures k == 0 ==> forall i: nat :: !Ahead(ts, user, i)
    ensures k > 0 ==> LastAhead(ts, user, sorted[k-1].index)
  {
    forall i: nat | Ahead(ts, user, i)
      ensures k > 0 && !Before(sorted[k-1], Final(ts[i].distance, i))
    {
      AheadIsSorted(ts, user, sorted, k, i);
    }
    if k > 0 {
      assert sorted[k-1] in multiset(sorted);
      assert sorted[k-1] in multiset(Finals(ts));
      assert sorted[k-1] in Finals(ts);
    }
  }
}
