/**
 * The clearances that still await a read-back.
 *
 * A new clearance evicts every pending one that shares a slot with it; a clearance with
 * no verifiable field replaces the whole queue.
 */
module ReadbackQueue {
  import opened AtcTypes

  /** The slots named by a clearance text. */
  function Slots(v: Verifier, text: string): set<Field> {
    set f | f in v.fields(text) :: SlotOf(f)
  }

  predicate Overlap(v: Verifier, a: string, b: string) {
    exists f :: f in Slots(v, a) && f in Slots(v, b)
  }

  /** `erase(remove_if(...))` on the pending list: keep what does not overlap `text`. */
  function WithoutOverlap(v: Verifier, q: seq<string>, text: string): (r: seq<string>)
    ensures |r| <= |q|
    ensures forall c :: c in r <==> c in q && !Overlap(v, c, text)
  {
    if q == [] then []
    else
      var rest := WithoutOverlap(v, q[1..], text);
      if Overlap(v, q[0], text) then rest else [q[0]] + rest
  }

  function Merge(v: Verifier, q: seq<string>, text: string): seq<string> {
    (if v.fields(text) == {} then [] else WithoutOverlap(v, q, text)) + [text]
  }

  /** A clearance is settled when it names a field and all its fields were read back. */
  predicate Settled(v: Verifier, ok: set<Field>, text: string) {
    v.fields(text) != {} && v.fields(text) <= ok
  }

  function Unsettled(v: Verifier, q: seq<string>, ok: set<Field>): (r: seq<string>)
    ensures |r| <= |q|
    ensures |r| == |q| ==> r == q
    ensures forall c :: c in r <==> c in q && !Settled(v, ok, c)
  {
    if q == [] then []
    else
      var rest := Unsettled(v, q[1..], ok);
      if Settled(v, ok, q[0]) then rest else [q[0]] + rest
  }

  /** The cached clearance text: a separator goes in only when the text so far is not empty. */
  function Join(q: seq<string>): string {
    if q == [] then ""
    else
      var head := Join(q[..|q|-1]);
      (if head == "" then "" else head + "  ") + q[|q|-1]
  }

  /** Pending clearances own disjoint slots, and only the first of them may own none. */
  ghost predicate QueueOk(v: Verifier, q: seq<string>) {
    && (forall i, j :: 0 <= i < j < |q| ==> Slots(v, q[i]) !! Slots(v, q[j]))
    && (forall i :: 0 < i < |q| ==> Slots(v, q[i]) != {})
  }

  lemma SlotsEmpty(v: Verifier, text: string)
    ensures Slots(v, text) == {} <==> v.fields(text) == {}
  {
    if v.fields(text) != {} {
      var f :| f in v.fields(text);
      assert SlotOf(f) in Slots(v, text);
    }
  }

  lemma {:induction false} WithoutOverlapOk(v: Verifier, q: seq<string>, text: string)
    requires QueueOk(v, q)
    ensures QueueOk(v, WithoutOverlap(v, q, text))
    decreases |q|
  {
    if q != [] {
      var rest := WithoutOverlap(v, q[1..], text);
      WithoutOverlapOk(v, q[1..], text);
      forall c | c in rest
        ensures Slots(v, q[0]) !! Slots(v, c) && Slots(v, c) != {}
      {
        assert c in q[1..];
        var k :| 0 <= k < |q| - 1 && q[1..][k] == c;
        assert q[k+1] == c;
      }
    }
  }

  lemma {:induction false} UnsettledOk(v: Verifier, q: seq<string>, ok: set<Field>)
    requires QueueOk(v, q)
    ensures QueueOk(v, Unsettled(v, q, ok))
    decreases |q|
  {
    if q != [] {
      var rest := Unsettled(v, q[1..], ok);
      UnsettledOk(v, q[1..], ok);
      forall c | c in rest
        ensures Slots(v, q[0]) !! Slots(v, c) && Slots(v, c) != {}
      {
        assert c in q[1..];
        var k :| 0 <= k < |q| - 1 && q[1..][k] == c;
        assert q[k+1] == c;
      }
    }
  }

  lemma MergeOk(v: Verifier, q: seq<string>, text: string)
    requires QueueOk(v, q)
    ensures QueueOk(v, Merge(v, q, text))
  {
    SlotsEmpty(v, text);
    if v.fields(text) != {} {
      var kept := WithoutOverlap(v, q, text);
      WithoutOverlapOk(v, q, text);
      forall i | 0 <= i < |kept|
        ensures Slots(v, kept[i]) !! Slots(v, text)
      {
        assert kept[i] in kept && !Overlap(v, kept[i], text);
      }
    }
  }

  /** A slot for each pending clearance after the first; no two of them are the same. */
  lemma {:induction false} OwnedSlots(v: Verifier, q: seq<string>, n: nat) returns (owned: set<Field>)
    requires QueueOk(v, q) && n < |q|
    ensures |owned| == n
    ensures forall f :: f in owned ==> f != FlightLevel && exists k :: 1 <= k <= n && f in Slots(v, q[k])
  {
    if n == 0 {
      owned := {};
    } else {
      var before := OwnedSlots(v, q, n - 1);
      var f :| f in Slots(v, q[n]);
      assert f !in before;
      owned := before + {f};
    }
  }

  /** Five slots and one slotless clearance: the queue never holds more than six. */
  lemma QueueBound(v: Verifier, q: seq<string>)
    requires QueueOk(v, q)
    ensures |q| <= 6
  {
    if q != [] {
      var owned := OwnedSlots(v, q, |q| - 1);
      SubsetBound(owned, {Runway, Altitude, Frequency, Squawk, Speed});
    }
  }

  lemma {:induction false} SubsetBound<T>(a: set<T>, b: set<T>)
    requires a <= b
    ensures |a| <= |b|
    decreases a
  {
    if a != {} {
      var x :| x in a;
      SubsetBound(a - {x}, b - {x});
    }
  }

  // ── What a sequence of clearances leaves pending ────────────────────────────

  function MergeAll(v: Verifier, q: seq<string>, texts: seq<string>): seq<string> {
    if texts == [] then q
    else Merge(v, MergeAll(v, q, texts[..|texts|-1]), texts[|texts|-1])
  }

  /** `texts[i]` is superseded when a later text is slotless or shares a slot with it. */
  predicate Superseded(v: Verifier, texts: seq<string>, i: nat)
    requires i < |texts|
  {
    exists j :: i < j < |texts| && (v.fields(texts[j]) == {} || Overlap(v, texts[i], texts[j]))
  }

  /** The texts that nothing later supersedes, in the order in which they were issued. */
  function Survivors(v: Verifier, texts: seq<string>, upTo: nat): seq<string>
    requires upTo <= |texts|
  {
    if upTo == 0 then []
    else
      Survivors(v, texts, upTo - 1) +
      (if Superseded(v, texts, upTo - 1) then [] else [texts[upTo - 1]])
  }

  lemma {:induction false} WithoutOverlapConcat(v: Verifier, a: seq<string>, b: seq<string>, text: string)
    ensures WithoutOverlap(v, a + b, text) == WithoutOverlap(v, a, text) + WithoutOverlap(v, b, text)
    decreases |a|
  {
    if a == [] {
      assert a + b == b;
    } else {
      assert (a + b)[1..] == a[1..] + b;
      WithoutOverlapConcat(v, a[1..], b, text);
    }
  }

  lemma {:induction false} SurvivorsSnoc(v: Verifier, texts: seq<string>, text: string, upTo: nat)
    requires upTo <= |texts|
    ensures Survivors(v, texts + [text], upTo) ==
            if v.fields(text) == {} then [] else WithoutOverlap(v, Survivors(v, texts, upTo), text)
    decreases upTo
  {
    if upTo > 0 {
      var more := texts + [text];
      var i := upTo - 1;
      SurvivorsSnoc(v, texts, text, i);
      assert forall j :: 0 <= j < |texts| ==> more[j] == texts[j];
      assert Superseded(v, more, i) <==>
        Superseded(v, texts, i) || v.fields(text) == {} || Overlap(v, texts[i], text) by {
        assert more[|texts|] == text;
        if Superseded(v, texts, i) {
          var j :| i < j < |texts| && (v.fields(texts[j]) == {} || Overlap(v, texts[i], texts[j]));
          assert more[j] == texts[j];
        }
      }
      WithoutOverlapConcat(v, Survivors(v, texts, i), if Superseded(v, texts, i) then [] else [texts[i]], text);
    }
  }

  /** Latest wins, slot by slot: arming texts one by one leaves exactly the survivors. */
  lemma {:induction false} MergeAllIsSurvivors(v: Verifier, texts: seq<string>)
    ensures MergeAll(v, [], texts) == Survivors(v, texts, |texts|)
    decreases |texts|
  {
    if texts != [] {
      var init, last := texts[..|texts|-1], texts[|texts|-1];
      MergeAllIsSurvivors(v, init);
      SurvivorsSnoc(v, init, last, |init|);
      assert texts == init + [last];
    }
  }
}
