/** Several outstanding clearances, read back one at a time or in one transmission. */
module ReadbackTogether {
  import opened Options
  import opened AtcTypes
  import opened ReadbackTokens
  import opened ReadbackItems
  import opened ReadbackVerdict

  // ── The items of several clearances ─────────────────────────────────────────

  function Flat(cs: seq<seq<Item>>): seq<Item> {
    if cs == [] then [] else Flat(cs[..|cs|-1]) + cs[|cs|-1]
  }

  lemma {:induction false} FlatConcat(a: seq<seq<Item>>, b: seq<seq<Item>>)
    ensures Flat(a + b) == Flat(a) + Flat(b)
    decreases |b|
  {
    if b == [] {
      assert a + b == a;
    } else {
      assert (a + b)[..|a + b| - 1] == a + b[..|b|-1];
      FlatConcat(a, b[..|b|-1]);
    }
  }

  lemma FlatSnoc(a: seq<seq<Item>>, c: seq<Item>)
    ensures Flat(a + [c]) == Flat(a) + c
  {
    assert (a + [c])[..|a|] == a;
  }

  lemma Around<T>(s: seq<T>, k: nat)
    requires k < |s|
    ensures s == (s[..k] + [s[k]]) + s[k+1..]
  {}

  lemma FlatAround(cs: seq<seq<Item>>, k: nat)
    requires k < |cs|
    ensures Flat(cs) == Flat(cs[..k]) + cs[k] + Flat(cs[k+1..])
  {
    Around(cs, k);
    FlatConcat(cs[..k] + [cs[k]], cs[k+1..]);
    FlatSnoc(cs[..k], cs[k]);
  }

  /** No level, altitude or speed of zero, and no "speed" without a number of its own. */
  predicate Definite(items: seq<Item>) {
    forall i :: 0 <= i < |items| ==>
      match items[i]
      case LevelItem(s) => Value(s) > 0
      case FeetItem(s) => Value(s) > 0
      case SpeedItem(s) => Value(s) > 0
      case SpeedMention => false
      case _ => true
  }

  predicate Fine(items: seq<Item>) {
    ItemsOk(items) && Definite(items)
  }

  /** The fields that are named. */
  function FieldsOf(items: seq<Item>): set<Field> {
    (if FirstRunway(items).Some? then {Runway} else {})
    + (if FirstLevel(items) > 0 then {FlightLevel} else {})
    + (if FirstLevel(items) == 0 && FirstFeet(items) > 0 then {Altitude} else {})
    + (if FirstFrequency(items).Some? then {Frequency} else {})
    + (if FirstSquawk(items).Some? then {Squawk} else {})
    + (if HasSpeed(FirstSpeed(items, Written)) then {Speed} else {})
  }

  lemma FieldsHeard(items: seq<Item>, form: Form)
    requires ItemsOk(items) && Spaced(items) && (form == Written || Definite(items))
    ensures Present(Heard(items, form)) == FieldsOf(items)
  {
    Extracted(items, form);
    if form != Written {
      OneSpeed(items, form);
    }
  }

  predicate Lacks(items: seq<Item>, f: Field) {
    match f
    case Runway => FirstRunway(items) == None && FirstSide(items) == None
    case FlightLevel => FirstLevel(items) == 0
    case Altitude => FirstLevel(items) == 0 && FirstFeet(items) == 0
    case Frequency => FirstFrequency(items) == None
    case Squawk => FirstSquawk(items) == None
    case Speed => FirstSpeed(items, Written) == None
  }

  /** Both name the field, if at all, alike. */
  predicate Same(a: seq<Item>, b: seq<Item>, f: Field) {
    match f
    case Runway => ClearedRunway(a) == ClearedRunway(b)
    case FlightLevel => FirstLevel(a) == FirstLevel(b)
    case Altitude => FirstLevel(a) == FirstLevel(b) && FirstFeet(a) == FirstFeet(b)
    case Frequency => FirstFrequency(a) == FirstFrequency(b)
    case Squawk => FirstSquawk(a) == FirstSquawk(b)
    case Speed => FirstSpeed(a, Written) == FirstSpeed(b, Written)
  }

  /** Without a bare "speed" the speed is the same in all forms. */
  lemma {:induction false} OneSpeed(items: seq<Item>, form: Form)
    requires Definite(items)
    ensures FirstSpeed(items, form) == FirstSpeed(items, Written)
    decreases |items|
  {
    if items != [] {
      OneSpeed(items[1..], form);
    }
  }

  lemma {:induction false} FirstCodes(a: seq<Item>, b: seq<Item>)
    requires Definite(a)
    ensures FirstRunway(a + b) == if FirstRunway(a).Some? then FirstRunway(a) else FirstRunway(b)
    ensures FirstSide(a + b) == if FirstSide(a).Some? then FirstSide(a) else FirstSide(b)
    ensures FirstFrequency(a + b) == if FirstFrequency(a).Some? then FirstFrequency(a) else FirstFrequency(b)
    ensures FirstSquawk(a + b) == if FirstSquawk(a).Some? then FirstSquawk(a) else FirstSquawk(b)
    ensures FirstSpeed(a + b, Written) == if FirstSpeed(a, Written).Some? then FirstSpeed(a, Written) else FirstSpeed(b, Written)
    decreases |a|
  {
    if a == [] {
      assert a + b == b;
    } else {
      assert (a + b)[0] == a[0] && (a + b)[1..] == a[1..] + b;
      FirstCodes(a[1..], b);
    }
  }

  lemma {:induction false} FirstNumbers(a: seq<Item>, b: seq<Item>)
    requires Definite(a)
    ensures FirstLevel(a + b) == if FirstLevel(a) > 0 then FirstLevel(a) else FirstLevel(b)
    ensures FirstFeet(a + b) == if FirstFeet(a) > 0 then FirstFeet(a) else FirstFeet(b)
    decreases |a|
  {
    if a == [] {
      assert a + b == b;
    } else {
      assert (a + b)[0] == a[0] && (a + b)[1..] == a[1..] + b;
      FirstNumbers(a[1..], b);
    }
  }

  lemma LacksBoth(a: seq<Item>, b: seq<Item>, f: Field)
    requires Definite(a) && Lacks(a, f) && Lacks(b, f)
    ensures Lacks(a + b, f)
  {
    FirstCodes(a, b);
    FirstNumbers(a, b);
  }

  /** A field that is named only in the middle. */
  lemma OnlyInTheMiddle(a: seq<Item>, c: seq<Item>, b: seq<Item>, f: Field)
    requires Definite(a) && Definite(c) && Lacks(a, f) && Lacks(b, f)
    ensures Same(a + c + b, c, f)
  {
    FirstCodes(a, c);
    FirstNumbers(a, c);
    FirstCodes(a + c, b);
    FirstNumbers(a + c, b);
  }

  lemma {:induction false} FlatLacks(cs: seq<seq<Item>>, f: Field)
    requires forall i :: 0 <= i < |cs| ==> Fine(cs[i]) && Lacks(cs[i], f)
    ensures Fine(Flat(cs)) && Lacks(Flat(cs), f)
    decreases |cs|
  {
    if cs != [] {
      FlatLacks(cs[..|cs|-1], f);
      LacksBoth(Flat(cs[..|cs|-1]), cs[|cs|-1], f);
    }
  }

  // ── Which clearance a field belongs to ──────────────────────────────────────

  function SlotsOf(items: seq<Item>): set<Field> {
    set f | f in FieldsOf(items) :: SlotOf(f)
  }

  /** Each clearance can be said, and no two of them share a slot. */
  ghost predicate Independent(cs: seq<seq<Item>>) {
    && (forall i :: 0 <= i < |cs| ==> Fine(cs[i]))
    && (forall i, j :: 0 <= i < j < |cs| ==> SlotsOf(cs[i]) !! SlotsOf(cs[j]))
  }

  lemma {:induction false} NothingHalfNamed(items: seq<Item>)
    requires Fine(items)
    ensures FirstRunway(items) == None ==> FirstSide(items) == None
    ensures FirstSpeed(items, Written).Some? ==> FirstSpeed(items, Written).value > 0
    decreases |items|
  {
    if items != [] {
      assert ItemOk(items[0]);
      NothingHalfNamed(items[1..]);
    }
  }

  lemma OthersLack(a: seq<Item>, b: seq<Item>, f: Field)
    requires Fine(a) && SlotsOf(a) !! SlotsOf(b) && f in FieldsOf(b)
    ensures Lacks(a, f)
  {
    NothingHalfNamed(a);
    assert SlotOf(f) in SlotsOf(b);
    forall g | g in FieldsOf(a)
      ensures SlotOf(g) != SlotOf(f)
    {
      assert SlotOf(g) in SlotsOf(a);
    }
  }

  /** What all of them together name in a field of one of them is what that one names. */
  lemma FieldIsTheirs(cs: seq<seq<Item>>, k: nat, f: Field)
    requires Independent(cs) && k < |cs| && f in FieldsOf(cs[k])
    ensures Same(Flat(cs), cs[k], f)
  {
    forall j | 0 <= j < |cs| && j != k
      ensures Lacks(cs[j], f)
    {
      OthersLack(cs[j], cs[k], f);
    }
    FlatLacks(cs[..k], f);
    FlatLacks(cs[k+1..], f);
    OnlyInTheMiddle(Flat(cs[..k]), cs[k], Flat(cs[k+1..]), f);
    FlatAround(cs, k);
  }

  /** The fields that `b` names as `a` does. */
  function Agreed(a: seq<Item>, b: seq<Item>): set<Field> {
    (if ClearedRunway(a).Some? && ClearedRunway(b) == ClearedRunway(a) then {Runway} else {})
    + (if FirstLevel(a) > 0 && FirstLevel(b) == FirstLevel(a) then {FlightLevel} else {})
    + (if FirstLevel(a) == 0 && FirstFeet(a) > 0 && FirstFeet(b) > 0 && Near(FirstFeet(b), FirstFeet(a))
       then {Altitude} else {})
    + (if FirstFrequency(a).Some? && FirstFrequency(b) == FirstFrequency(a) then {Frequency} else {})
    + (if FirstSquawk(a).Some? && FirstSquawk(b) == FirstSquawk(a) then {Squawk} else {})
    + (if HasSpeed(FirstSpeed(a, Written)) && FirstSpeed(b, Written) == FirstSpeed(a, Written) then {Speed} else {})
  }

  lemma AgreedHeard(a: seq<Item>, b: seq<Item>, form: Form)
    requires ItemsOk(a) && Spaced(a) && ItemsOk(b) && Spaced(b) && Definite(b)
    ensures Matched(Heard(a, Written), Heard(b, form)) == Agreed(a, b)
  {
    OneSpeed(b, form);
    Extracted(a, Written);
    Extracted(b, form);
  }

  lemma SameIsAgreed(a: seq<Item>, b: seq<Item>, f: Field)
    requires f in FieldsOf(b) && Same(a, b, f)
    ensures f in Agreed(a, b)
  {}

  lemma AgreedIsNamed(a: seq<Item>, b: seq<Item>, f: Field)
    requires f in Agreed(a, b) && (FirstLevel(b) > 0 ==> FirstLevel(a) > 0)
    ensures f in FieldsOf(b)
  {}

  /** Reading back one of them matches exactly its own fields. */
  lemma MatchedIsThatClearance(cs: seq<seq<Item>>, k: nat, form: Form)
    requires Independent(cs) && k < |cs| && Spaced(Flat(cs)) && Spaced(cs[k]) && ItemsOk(Flat(cs))
    ensures Matched(Heard(Flat(cs), Written), Heard(cs[k], form)) == FieldsOf(cs[k])
  {
    AgreedHeard(Flat(cs), cs[k], form);
    forall f | f in FieldsOf(cs[k])
      ensures f in Agreed(Flat(cs), cs[k])
    {
      FieldIsTheirs(cs, k, f);
      SameIsAgreed(Flat(cs), cs[k], f);
    }
    if FirstLevel(cs[k]) > 0 {
      FieldIsTheirs(cs, k, FlightLevel);
    }
    forall f | f in Agreed(Flat(cs), cs[k])
      ensures f in FieldsOf(cs[k])
    {
      AgreedIsNamed(Flat(cs), cs[k], f);
    }
  }

  lemma {:induction false} FlatDefinite(cs: seq<seq<Item>>)
    requires forall i :: 0 <= i < |cs| ==> Definite(cs[i])
    ensures Definite(Flat(cs))
    decreases |cs|
  {
    if cs != [] {
      FlatDefinite(cs[..|cs|-1]);
    }
  }

  /** Read back as a whole, they match all their fields. */
  lemma AllMatched(items: seq<Item>, form: Form)
    requires ItemsOk(items) && Spaced(items) && Definite(items)
    ensures Matched(Heard(items, Written), Heard(items, form)) == FieldsOf(items)
  {
    NoMentionReadsAlike(items);
    FaithfulReadbackPasses(items, form);
    FieldsHeard(items, Written);
  }

  /** All of them together name the fields of each. */
  lemma FieldsOfAll(cs: seq<seq<Item>>, k: nat)
    requires Independent(cs) && k < |cs|
    ensures FieldsOf(cs[k]) <= FieldsOf(Flat(cs))
  {
    forall f | f in FieldsOf(cs[k])
      ensures f in FieldsOf(Flat(cs))
    {
      FieldIsTheirs(cs, k, f);
    }
  }

  /** Where nothing is named nothing can be wrong. */
  lemma NothingNamed(cl: seq<Token>, rb: seq<Token>)
    requires Present(cl) == {}
    ensures Faults(cl, rb) == []
  {
    assert Runway !in Present(cl) && FlightLevel !in Present(cl) && Altitude !in Present(cl);
    assert Frequency !in Present(cl) && Squawk !in Present(cl) && Speed !in Present(cl);
  }

  lemma {:induction false} SpacedParts(a: seq<Item>, b: seq<Item>)
    requires Spaced(a + b)
    ensures Spaced(a) && Spaced(b)
    decreases |a|
  {
    if a == [] {
      assert a + b == b;
    } else {
      assert (a + b)[1..] == a[1..] + b && (a + b)[0] == a[0];
      if |a + b| >= 2 {
        SpacedParts(a[1..], b);
      } else {
        assert b == [];
      }
      if |a| >= 2 {
        assert (a + b)[1] == a[1];
      }
    }
  }

  lemma {:induction false} SpacedEach(cs: seq<seq<Item>>, k: nat)
    requires Spaced(Flat(cs)) && k < |cs|
    ensures Spaced(cs[k])
  {
    FlatAround(cs, k);
    SpacedParts(Flat(cs[..k]) + cs[k], Flat(cs[k+1..]));
    SpacedParts(Flat(cs[..k]), cs[k]);
  }
}
