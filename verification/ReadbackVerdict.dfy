/** What the verifier says of a read-back, in terms of the items of the clearance. */
module ReadbackVerdict {
  import opened Options
  import opened Text
  import opened AtcTypes
  import opened ReadbackTokens
  import opened ReadbackItems
  import Replace
  import FrequencyWords

  // ── The digits that are said ────────────────────────────────────────────────

  /** The runs of digits of an item. */
  function DigitsOf(it: Item): seq<string> {
    match it
    case RunwayItem(n, _) => [n]
    case LevelItem(s) => [s]
    case FeetItem(s) => [s]
    case FrequencyItem(w, f) => [w, f]
    case SquawkItem(s) => [s]
    case SpeedItem(s) => [s]
    case _ => []
  }

  predicate Within(target: string, s: string) {
    exists i :: 0 <= i <= |s| && Replace.Occurs(s, target, i)
  }

  /** Some item has a run of digits that contains those of `target`. */
  predicate SaysDigits(items: seq<Item>, target: string) {
    exists i, k :: 0 <= i < |items| && 0 <= k < |DigitsOf(items[i])| && Within(target, DigitsOf(items[i])[k])
  }

  predicate AnyWithin(runs: seq<string>, target: string) {
    exists r :: 0 <= r < |runs| && Within(target, runs[r])
  }

  lemma AnyIsInRuns(runs: seq<string>, target: string)
    ensures InRuns(runs, target) <==> AnyWithin(runs, target)
  {
    if InRuns(runs, target) {
      var r, i :| 0 <= r < |runs| && 0 <= i <= |runs[r]| && Replace.Occurs(runs[r], target, i);
      assert Within(target, runs[r]);
    }
  }

  lemma AnyInBoth(a: seq<string>, b: seq<string>, target: string)
    ensures AnyWithin(a + b, target) <==> AnyWithin(a, target) || AnyWithin(b, target)
  {
    forall r | 0 <= r < |a|
      ensures (a + b)[r] == a[r]
    {}
    forall r | 0 <= r < |b|
      ensures (a + b)[|a| + r] == b[r]
    {}
  }

  lemma NotInEmpty(target: string)
    requires target != ""
    ensures !Within(target, "")
  {}

  lemma AnyOfOne(s: string, target: string)
    ensures AnyWithin([s], target) <==> Within(target, s)
  {
    if Within(target, s) {
      assert [s][0] == s;
    }
  }

  lemma {:induction false} RunsPaired(s: string, cur: string, rest: seq<Token>)
    ensures Runs(PairedDigits(s) + rest, cur) == Runs(rest, cur + s)
    ensures Runs([Digits(s)] + rest, cur) == Runs(rest, cur + s)
    decreases |s|
  {
    assert ([Digits(s)] + rest)[1..] == rest;
    if |s| > 2 {
      var ts := PairedDigits(s) + rest;
      assert ts[0] == Digits(s[..2]) && ts[1..] == PairedDigits(s[2..]) + rest;
      RunsPaired(s[2..], cur + s[..2], rest);
      assert cur + s[..2] + s[2..] == cur + s;
    }
  }

  lemma RunsWord(k: Kind, ts: seq<Token>, cur: string)
    ensures Runs([Word(k)] + ts, cur) == [cur] + Runs(ts, "")
  {
    assert ([Word(k)] + ts)[1..] == ts;
  }

  /** A word ends the run that is being read. */
  lemma WordEndsRun(k: Kind, ts: seq<Token>, cur: string, target: string)
    requires target != ""
    ensures AnyWithin(Runs([Word(k)] + ts, cur), target) <==> Within(target, cur) || AnyWithin(Runs(ts, ""), target)
  {
    RunsWord(k, ts, cur);
    AnyInBoth([cur], Runs(ts, ""), target);
    AnyOfOne(cur, target);
  }

  /** So does whatever may follow an item. */
  lemma OpenEndsRun(rest: seq<Token>, cur: string, target: string)
    requires Open(rest) && target != ""
    ensures AnyWithin(Runs(rest, cur), target) <==> Within(target, cur) || AnyWithin(Runs(rest, ""), target)
  {
    NotInEmpty(target);
    if rest == [] {
      AnyOfOne(cur, target);
      AnyOfOne("", target);
    } else {
      assert rest == [Word(rest[0].k)] + rest[1..];
      WordEndsRun(rest[0].k, rest[1..], cur, target);
      WordEndsRun(rest[0].k, rest[1..], "", target);
    }
  }

  /** Digits, written or spelled, and what may follow them. */
  lemma FiguresSaid(figures: seq<Token>, s: string, rest: seq<Token>, target: string)
    requires figures == [Digits(s)] || figures == PairedDigits(s)
    requires Open(rest) && target != ""
    ensures AnyWithin(Runs(figures + rest, ""), target) <==> Within(target, s) || AnyWithin(Runs(rest, ""), target)
  {
    RunsPaired(s, "", rest);
    assert "" + s == s;
    OpenEndsRun(rest, s, target);
  }

  /** Digits before a word. */
  lemma FiguresThenWord(s: string, k: Kind, rest: seq<Token>, target: string)
    requires target != ""
    ensures AnyWithin(Runs([Digits(s), Word(k)] + rest, ""), target) <==> Within(target, s) || AnyWithin(Runs(rest, ""), target)
  {
    assert [Digits(s), Word(k)] + rest == [Digits(s)] + ([Word(k)] + rest);
    RunsPaired(s, "", [Word(k)] + rest);
    assert "" + s == s;
    WordEndsRun(k, rest, s, target);
  }

  lemma WordSaysNothing(k: Kind, ts: seq<Token>, target: string)
    requires target != ""
    ensures AnyWithin(Runs([Word(k)] + ts, ""), target) <==> AnyWithin(Runs(ts, ""), target)
  {
    NotInEmpty(target);
    WordEndsRun(k, ts, "", target);
  }

  predicate ItemSays(it: Item, target: string) {
    AnyWithin(DigitsOf(it), target)
  }

  lemma RunwaySays(n: string, side: Option<char>, form: Form, rest: seq<Token>, target: string)
    requires Open(rest) && target != ""
    ensures AnyWithin(Runs(HeardItem(RunwayItem(n, side), form) + rest, ""), target)
            <==> Within(target, n) || AnyWithin(Runs(rest, ""), target)
  {
    var tail := SideTokens(n, side, form);
    assert HeardItem(RunwayItem(n, side), form) + rest == [Word(RunwayWord)] + (tail + rest);
    WordSaysNothing(RunwayWord, tail + rest, target);
    match side {
      case None => FiguresSaid(tail, n, rest, target);
      case Some(c) =>
        if form == Written {
          assert (tail + rest)[1..] == rest && "" + n == n;
          AnyInBoth([n], Runs(rest, ""), target);
          AnyOfOne(n, target);
        } else {
          FiguresThenWord(n, Side(c), rest, target);
        }
    }
  }

  lemma LevelSays(s: string, form: Form, rest: seq<Token>, target: string)
    requires Open(rest) && target != ""
    ensures AnyWithin(Runs(HeardItem(LevelItem(s), form) + rest, ""), target)
            <==> Within(target, s) || AnyWithin(Runs(rest, ""), target)
  {
    var tail := FiguresHeard(s, form) + rest;
    assert HeardItem(LevelItem(s), form) + rest == [Word(Flight)] + ([Word(Level)] + tail);
    WordSaysNothing(Flight, [Word(Level)] + tail, target);
    WordSaysNothing(Level, tail, target);
    FiguresSaid(FiguresHeard(s, form), s, rest, target);
  }

  lemma SquawkSays(s: string, form: Form, rest: seq<Token>, target: string)
    requires Open(rest) && target != ""
    ensures AnyWithin(Runs(HeardItem(SquawkItem(s), form) + rest, ""), target)
            <==> Within(target, s) || AnyWithin(Runs(rest, ""), target)
  {
    var tail := FiguresHeard(s, form) + rest;
    assert HeardItem(SquawkItem(s), form) + rest == [Word(SquawkWord)] + tail;
    WordSaysNothing(SquawkWord, tail, target);
    FiguresSaid(FiguresHeard(s, form), s, rest, target);
  }

  lemma FrequencySays(w: string, f: string, rest: seq<Token>, target: string)
    requires Open(rest) && target != ""
    ensures AnyWithin(Runs([Dotted(w, f)] + rest, ""), target)
            <==> Within(target, w) || Within(target, f) || AnyWithin(Runs(rest, ""), target)
  {
    assert ([Dotted(w, f)] + rest)[1..] == rest && "" + w == w;
    AnyInBoth([w], Runs(rest, f), target);
    AnyOfOne(w, target);
    OpenEndsRun(rest, f, target);
  }

  lemma SpeedSays(s: string, rest: seq<Token>, target: string)
    requires target != ""
    ensures AnyWithin(Runs([Word(SpeedWord), Digits(s), Word(Knots(true))] + rest, ""), target)
            <==> Within(target, s) || AnyWithin(Runs(rest, ""), target)
  {
    var tail := [Digits(s), Word(Knots(true))] + rest;
    assert [Word(SpeedWord), Digits(s), Word(Knots(true))] + rest == [Word(SpeedWord)] + tail;
    WordSaysNothing(SpeedWord, tail, target);
    FiguresThenWord(s, Knots(true), rest, target);
  }

  lemma OneRun(it: Item, s: string, target: string)
    requires DigitsOf(it) == [s]
    ensures ItemSays(it, target) <==> Within(target, s)
  {
    AnyOfOne(s, target);
  }

  /** An item says its own digits, and leaves what follows as it is. */
  lemma ItemThenRest(it: Item, form: Form, rest: seq<Token>, target: string)
    requires ItemOk(it) && (Wordy(it) || Open(rest)) && target != ""
    ensures AnyWithin(Runs(HeardItem(it, form) + rest, ""), target) <==> ItemSays(it, target) || AnyWithin(Runs(rest, ""), target)
  {
    match it
    case Neutral(_) => WordSaysNothing(Kind.Plain, rest, target);
    case SpeedMention => WordSaysNothing(SpeedWord, rest, target);
    case RunwayItem(n, side) =>
      RunwaySays(n, side, form, rest, target);
      OneRun(it, n, target);
    case LevelItem(s) =>
      LevelSays(s, form, rest, target);
      OneRun(it, s, target);
    case FeetItem(s) =>
      FiguresThenWord(s, Feet, rest, target);
      OneRun(it, s, target);
    case FrequencyItem(w, f) =>
      FrequencySays(w, f, rest, target);
      AnyInBoth([w], [f], target);
      AnyOfOne(w, target);
      AnyOfOne(f, target);
      assert [w] + [f] == DigitsOf(it);
    case SquawkItem(s) =>
      SquawkSays(s, form, rest, target);
      OneRun(it, s, target);
    case SpeedItem(s) =>
      SpeedSays(s, rest, target);
      OneRun(it, s, target);
  }

  lemma SaysFirstOrLater(items: seq<Item>, target: string)
    requires items != []
    ensures SaysDigits(items, target) <==> ItemSays(items[0], target) || SaysDigits(items[1..], target)
  {
    if SaysDigits(items, target) {
      var i, k :| 0 <= i < |items| && 0 <= k < |DigitsOf(items[i])| && Within(target, DigitsOf(items[i])[k]);
      if i > 0 {
        assert items[1..][i-1] == items[i];
      }
    }
    if SaysDigits(items[1..], target) {
      var i, k :| 0 <= i < |items| - 1 && 0 <= k < |DigitsOf(items[1..][i])| && Within(target, DigitsOf(items[1..][i])[k]);
      assert items[1..][i] == items[i+1];
    }
  }

  /** The runs of digits in a text of items are those of its items. */
  lemma {:induction false} RunsOfItems(items: seq<Item>, form: Form, target: string)
    requires ItemsOk(items) && Spaced(items) && target != ""
    ensures AnyWithin(Runs(Heard(items, form), ""), target) <==> SaysDigits(items, target)
    decreases |items|
  {
    if items == [] {
      AnyOfOne("", target);
      NotInEmpty(target);
    } else {
      AfterItem(items, form);
      RunsOfItems(items[1..], form, target);
      ItemThenRest(items[0], form, Heard(items[1..], form), target);
      SaysFirstOrLater(items, target);
    }
  }

  /** No token of the block adds up with the next. */
  ghost predicate Uncompounded(block: seq<Token>) {
    forall i, j :: 0 <= i < j < |block| && j == i + 1 && block[j].Digits? ==>
      block[i].Word? || (block[i].Digits? && |block[i].s| <= 2)
  }

  lemma {:induction false} CompoundsBlock(block: seq<Token>, more: seq<Token>)
    requires Uncompounded(block) && (Open(more) || block == [] || block[|block|-1].Word?) && Compounds(more) == more
    ensures Compounds(block + more) == block + more
    decreases |block|
  {
    if block == [] {
      assert block + more == more;
    } else {
      var ts := block + more;
      assert ts[0] == block[0] && ts[1..] == block[1..] + more && ts == [ts[0]] + ts[1..];
      CompoundsBlock(block[1..], more);
      if |ts| >= 2 {
        assert ts[1] == if |block| > 1 then block[1] else more[0];
      }
    }
  }

  lemma ItemUncompounded(it: Item, form: Form)
    requires ItemOk(it)
    ensures Uncompounded(HeardItem(it, form)) && (Wordy(it) ==> HeardItem(it, form)[0].Word? && |HeardItem(it, form)| == 1)
  {
    match it
    case LevelItem(s) => PairedShape(s);
    case SquawkItem(s) => PairedShape(s);
    case _ =>
  }

  /** In a text of items no two numbers stand side by side, so none add up. */
  lemma {:induction false} NoCompounds(items: seq<Item>, form: Form)
    requires ItemsOk(items) && Spaced(items)
    ensures Compounds(Heard(items, form)) == Heard(items, form)
    decreases |items|
  {
    if items != [] {
      AfterItem(items, form);
      NoCompounds(items[1..], form);
      ItemUncompounded(items[0], form);
      CompoundsBlock(HeardItem(items[0], form), Heard(items[1..], form));
    }
  }

  /** The fallback of the verifier: the number stands somewhere among the digits that are said. */
  lemma ContainsExactly(items: seq<Item>, form: Form, value: nat)
    requires ItemsOk(items) && Spaced(items)
    ensures ReadbackContains(Heard(items, form), value) <==> SaysDigits(items, Numeral(value))
  {
    NoCompounds(items, form);
    RunsOfItems(items, form, Numeral(value));
    AnyIsInRuns(Runs(Heard(items, form), ""), Numeral(value));
  }

  // ── Levels, altitudes and speeds ────────────────────────────────────────────

  /** The first number of the read-back is another one, and the cleared one is nowhere among its digits. */
  predicate WrongLevel(cl: seq<Item>, rb: seq<Item>) {
    var c := FirstLevel(cl);
    c > 0 && FirstLevel(rb) != c && !SaysDigits(rb, Numeral(c))
  }

  /** An altitude may be 100 feet off, and is not compared when a level is cleared as well. */
  predicate WrongFeet(cl: seq<Item>, rb: seq<Item>) {
    var c := FirstFeet(cl);
    FirstLevel(cl) == 0 && c > 0 && (FirstFeet(rb) == 0 || !Near(FirstFeet(rb), c)) && !SaysDigits(rb, Numeral(c))
  }

  predicate WrongSpeed(cl: seq<Item>, rb: seq<Item>, form: Form) {
    var c := FirstSpeed(cl, Written);
    HasSpeed(c) && FirstSpeed(rb, form) != c && !SaysDigits(rb, Numeral(c.value))
  }

  /** A level, an altitude, a speed is reported exactly when another one, or none, is said and the digits of the
      cleared one are not contained in any digits that are said, of whatever item. */
  lemma WrongNumberIsReportedUnlessItsDigitsAreSaid(cl: seq<Item>, rb: seq<Item>, form: Form)
    requires ItemsOk(cl) && Spaced(cl) && ItemsOk(rb) && Spaced(rb)
    ensures LevelFaults(Heard(cl, Written), Heard(rb, form)) != [] <==> WrongLevel(cl, rb)
    ensures FeetFaults(Heard(cl, Written), Heard(rb, form)) != [] <==> WrongFeet(cl, rb)
    ensures SpeedFaults(Heard(cl, Written), Heard(rb, form)) != [] <==> WrongSpeed(cl, rb, form)
  {
    Extracted(cl, Written);
    Extracted(rb, form);
    ContainsExactly(rb, form, FirstLevel(cl));
    ContainsExactly(rb, form, FirstFeet(cl));
    if FirstSpeed(cl, Written).Some? {
      ContainsExactly(rb, form, FirstSpeed(cl, Written).value);
    }
  }

  // ── A faithful read-back ────────────────────────────────────────────────────

  lemma Extracted(items: seq<Item>, form: Form)
    requires ItemsOk(items) && Spaced(items)
    ensures var ts := Heard(items, form);
            && ExtractRunway(ts) == FirstRunway(items) && ExtractDesignator(ts) == ClearedRunway(items)
            && ExtractLevel(ts) == FirstLevel(items) && ExtractFeet(ts) == FirstFeet(items)
            && ExtractFrequency(ts) == FirstFrequency(items) && ExtractSquawk(ts) == FirstSquawk(items)
            && ExtractSpeed(ts) == FirstSpeed(items, form)
  {
    DesignatorHeard(items, form);
    LevelHeard(items, form);
    FeetHeard(items, form);
    FrequencyHeard(items, form);
    SquawkHeard(items, form);
    SpeedHeard(items, form);
  }

  /** Without its leading zeros a number is its own numeral. */
  lemma {:induction false} NumeralAtEnd(s: string) returns (k: nat)
    requires AllDigits(s) && NumberOf(s) > 0
    ensures k <= |s| && s[k..] == Numeral(NumberOf(s))
    decreases |s|
  {
    if |s| == 1 || s[0] != '0' {
      FrequencyWords.NumeralOfNumber(s);
      return 0;
    }
    LeadingZero(s);
    var i := NumeralAtEnd(s[1..]);
    k := i + 1;
    assert s[1..][i..] == s[k..];
  }

  lemma {:induction false} LeadingZero(s: string)
    requires AllDigits(s) && s != "" && s[0] == '0'
    ensures NumberOf(s[1..]) == NumberOf(s)
    decreases |s|
  {
    if |s| > 1 {
      var init := s[..|s|-1];
      LeadingZero(init);
      assert s[1..][..|s|-2] == init[1..] && s[1..][|s|-2] == s[|s|-1];
    } else {
      assert s[..0] == "" && s[1..] == "";
    }
  }

  /** The digits that a speed takes are among those that are said. */
  lemma TakenDigitsAreSaid(items: seq<Item>, i: nat, k: nat, s: string, n: nat)
    requires i < |items| && k < |DigitsOf(items[i])| && DigitsOf(items[i])[k] == s
    requires AllDigits(s) && NumberOf(First(s, n)) > 0
    ensures SaysDigits(items, Numeral(NumberOf(First(s, n))))
  {
    var t := First(s, n);
    var j := NumeralAtEnd(t);
    assert s[j..][..|t| - j] == t[j..];
    assert s[j..j + (|t| - j)] == t[j..];
    assert Replace.Occurs(s, t[j..], j);
    assert Within(t[j..], s);
  }

  lemma {:induction false} SpeedIsSaid(items: seq<Item>)
    requires ItemsOk(items) && HasSpeed(FirstSpeed(items, Written))
    ensures SaysDigits(items, Numeral(FirstSpeed(items, Written).value))
    decreases |items|
  {
    var it := items[0];
    if it.SpeedItem? {
      assert First(it.knots, 3) == it.knots;
      TakenDigitsAreSaid(items, 0, 0, it.knots, 3);
    } else if it.SpeedMention? && |NextFigures(items[1..], Written)| >= 2 {
      NextOfNextItem(items[1..], Written);
      var next := NextItem(items[1..]).value;
      var i :| 0 <= i < |items| - 1 && items[1..][i] == next;
      assert items[i+1] == next && ItemOk(next);
      TakenDigitsAreSaid(items, i + 1, 0, FirstFigures(next, Written), 3);
    } else {
      SpeedIsSaid(items[1..]);
      SaysFirstOrLater(items, Numeral(FirstSpeed(items, Written).value));
    }
  }

  /** A clearance read back as it was said, in any form, has no fault; and every field that it has is matched
      exactly when its speed, if any, is heard in speech as it is read in writing. */
  lemma FaithfulReadbackPasses(items: seq<Item>, form: Form)
    requires ItemsOk(items) && Spaced(items)
    ensures Faults(Heard(items, Written), Heard(items, form)) == []
    ensures Matched(Heard(items, Written), Heard(items, form)) == Present(Heard(items, Written))
            <==> form == Written || SpeedReadsAlike(items)
  {
    var a, b := Heard(items, Written), Heard(items, form);
    Extracted(items, Written);
    Extracted(items, form);
    if form != Written {
      SpeedAlikeExactly(items, form);
    }
    WrongNumberIsReportedUnlessItsDigitsAreSaid(items, items, form);
    if HasSpeed(FirstSpeed(items, Written)) {
      SpeedIsSaid(items);
    }
    NoFaults(a, b);
    MatchedButSpeed(a, b);
  }

  lemma NoFaults(a: seq<Token>, b: seq<Token>)
    requires ExtractDesignator(a) == ExtractDesignator(b) && ExtractLevel(a) == ExtractLevel(b)
    requires ExtractFeet(a) == ExtractFeet(b) && ExtractFrequency(a) == ExtractFrequency(b)
    requires ExtractSquawk(a) == ExtractSquawk(b) && SpeedFaults(a, b) == []
    ensures Faults(a, b) == []
  {
    assert RunwayFaults(a, b) == [] && LevelFaults(a, b) == [] && FeetFaults(a, b) == [];
    assert FrequencyFaults(a, b) == [] && SquawkFaults(a, b) == [];
  }

  /** Two texts that differ in the speed at most. */
  lemma MatchedButSpeed(a: seq<Token>, b: seq<Token>)
    requires ExtractDesignator(a) == ExtractDesignator(b) && ExtractLevel(a) == ExtractLevel(b)
    requires ExtractFeet(a) == ExtractFeet(b) && ExtractFrequency(a) == ExtractFrequency(b)
    requires ExtractSquawk(a) == ExtractSquawk(b)
    ensures Matched(a, b) == Present(a) <==> (HasSpeed(ExtractSpeed(a)) ==> ExtractSpeed(b) == ExtractSpeed(a))
  {
    assert Speed in Present(a) <==> HasSpeed(ExtractSpeed(a));
    assert Speed in Matched(a, b) <==> HasSpeed(ExtractSpeed(a)) && ExtractSpeed(b) == ExtractSpeed(a);
    assert forall f :: f != Speed ==> (f in Matched(a, b) <==> f in Present(a));
  }

  // ── Codes ───────────────────────────────────────────────────────────────────

  /** Frequencies and squawk codes: reported exactly when the first one of the clearance is not the first one said. */
  lemma WrongCodeIsReported(cl: seq<Item>, rb: seq<Item>, form: Form)
    requires ItemsOk(cl) && Spaced(cl) && ItemsOk(rb) && Spaced(rb)
    ensures FrequencyFaults(Heard(cl, Written), Heard(rb, form)) != []
            <==> FirstFrequency(cl).Some? && FirstFrequency(rb) != FirstFrequency(cl)
    ensures SquawkFaults(Heard(cl, Written), Heard(rb, form)) != []
            <==> FirstSquawk(cl).Some? && FirstSquawk(rb) != FirstSquawk(cl)
  {
    Extracted(cl, Written);
    Extracted(rb, form);
  }

  // ── Runways ─────────────────────────────────────────────────────────────────

  predicate OnlyRunway(items: seq<Item>, i: nat) {
    i < |items| && items[i].RunwayItem?
    && forall j :: 0 <= j < |items| && j != i ==> !items[j].RunwayItem?
  }

  function NameOfItem(it: Item): RunwayName
    requires it.RunwayItem? && ItemOk(it)
  {
    RunwayName(NumberOf(it.number), it.side)
  }

  lemma {:induction false} NoRunway(items: seq<Item>)
    requires forall j :: 0 <= j < |items| ==> !items[j].RunwayItem?
    ensures FirstRunway(items) == None && FirstSide(items) == None
    decreases |items|
  {
    if items != [] {
      NoRunway(items[1..]);
    }
  }

  lemma {:induction false} TheRunway(items: seq<Item>, i: nat)
    requires ItemsOk(items) && OnlyRunway(items, i)
    ensures ClearedRunway(items) == Some(NameOfItem(items[i]))
    decreases |items|
  {
    if i == 0 {
      NoRunway(items[1..]);
    } else {
      TheRunway(items[1..], i - 1);
    }
  }

  /** A runway is reported exactly when the number and side that are cleared are not those that are heard. */
  lemma WrongRunwayIsReported(cl: seq<Item>, rb: seq<Item>, form: Form)
    requires ItemsOk(cl) && Spaced(cl) && ItemsOk(rb) && Spaced(rb)
    ensures RunwayFaults(Heard(cl, Written), Heard(rb, form)) != []
            <==> ClearedRunway(cl).Some? && ClearedRunway(rb) != ClearedRunway(cl)
  {
    Extracted(cl, Written);
    Extracted(rb, form);
  }

  /** With one runway on each side that is exactly when the designators differ, side included. */
  lemma OneRunwayIsComparedByName(cl: seq<Item>, i: nat, rb: seq<Item>, j: nat, form: Form)
    requires ItemsOk(cl) && Spaced(cl) && OnlyRunway(cl, i)
    requires ItemsOk(rb) && Spaced(rb) && OnlyRunway(rb, j)
    ensures RunwayFaults(Heard(cl, Written), Heard(rb, form)) != [] <==> NameOfItem(rb[j]) != NameOfItem(cl[i])
  {
    WrongRunwayIsReported(cl, rb, form);
    TheRunway(cl, i);
    TheRunway(rb, j);
  }

  /** The first runway of a clearance is compared under its own name unless it has no side and a later one has. */
  lemma {:induction false} FirstRunwayKeepsItsName(items: seq<Item>, i: nat)
    requires ItemsOk(items) && i < |items| && items[i].RunwayItem?
    requires forall j :: 0 <= j < i ==> !items[j].RunwayItem?
    ensures ClearedRunway(items) == Some(NameOfItem(items[i]))
            <==> items[i].side.Some? || FirstSide(items[i+1..]) == None
    decreases i
  {
    if i > 0 {
      FirstRunwayKeepsItsName(items[1..], i - 1);
      assert items[1..][i..] == items[i+1..];
    }
  }

  lemma RunwaysCompared(cl: seq<Item>, rb: seq<Item>)
    requires ItemsOk(cl) && Spaced(cl) && ItemsOk(rb) && Spaced(rb)
    ensures RunwayFaults(Heard(cl, Written), Heard(rb, Written)) == []
            <==> ClearedRunway(cl) == None || ClearedRunway(rb) == ClearedRunway(cl)
  {
    DesignatorHeard(cl, Written);
    DesignatorHeard(rb, Written);
  }

  /** "runway 22 and runway 04R" is compared as 22R: a read-back of runway 22 is refused, one of 22R accepted. */
  lemma SidesAreMixed()
    ensures var cl := [RunwayItem("22", None), Neutral("and"), RunwayItem("04", Some('r'))];
            && RunwayFaults(Heard(cl, Written), Heard([RunwayItem("22", Some('r'))], Written)) == []
            && RunwayFaults(Heard(cl, Written), Heard([RunwayItem("22", None)], Written)) != []
  {
    var last := [RunwayItem("04", Some('r'))];
    var cl := [RunwayItem("22", None), Neutral("and")] + last;
    assert cl[1..] == [Neutral("and")] + last && cl[1..][1..] == last;
    var r, plain := [RunwayItem("22", Some('r'))], [RunwayItem("22", None)];
    TheRunway(r, 0);
    TheRunway(plain, 0);
    assert FirstSide(cl) == FirstSide(last);
    RunwaysCompared(cl, r);
    RunwaysCompared(cl, plain);
  }

  // ── Wrong levels that pass ──────────────────────────────────────────────────

  /** Flight level 190 passes as a read-back of flight level 90. */
  lemma Level190PassesFor90()
    ensures LevelFaults(Heard([LevelItem("90")], Written), Heard([LevelItem("190")], Spoken)) == []
  {
    var rb := [LevelItem("190")];
    NinetySaid(rb, 0, "190", 1);
    NinetyPasses(rb, Spoken);
  }

  /** Flight level 80 passes for flight level 90 when a squawk code with "90" in it is read back as well. */
  lemma Level80PassesFor90WithSquawk1906()
    ensures var rb := [LevelItem("80"), Neutral("with"), SquawkItem("1906")];
            LevelFaults(Heard([LevelItem("90")], Written), Heard(rb, Spoken)) == []
  {
    var rb := [LevelItem("80"), Neutral("with"), SquawkItem("1906")];
    NinetySaid(rb, 2, "1906", 1);
    NinetyPasses(rb, Spoken);
  }

  lemma NinetySaid(rb: seq<Item>, i: nat, s: string, j: nat)
    requires i < |rb| && DigitsOf(rb[i]) == [s] && j + 2 <= |s| && s[j] == '9' && s[j+1] == '0'
    ensures SaysDigits(rb, "90")
  {
    assert s[j..j+2] == "90";
    assert Replace.Occurs(s, "90", j);
    assert Within("90", DigitsOf(rb[i])[0]);
  }

  lemma NinetyRead()
    ensures Value("90") == 90 && Numeral(90) == "90"
  {
    assert "90"[..1] == "9" && "9"[..0] == "" && NumberOf("9") == 9;
    assert Numeral(9) == "9" && Numeral(90) == Numeral(9) + "0";
  }

  /** Whatever says "90" passes for flight level 90. */
  lemma NinetyPasses(rb: seq<Item>, form: Form)
    requires ItemsOk(rb) && Spaced(rb) && SaysDigits(rb, "90")
    ensures LevelFaults(Heard([LevelItem("90")], Written), Heard(rb, form)) == []
  {
    var cl := [LevelItem("90")];
    NinetyRead();
    assert FirstLevel(cl) == 90;
    WrongNumberIsReportedUnlessItsDigitsAreSaid(cl, rb, form);
  }
}
