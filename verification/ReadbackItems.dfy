/** Clearances made of items, and what every extractor finds in them however they are said. */
module ReadbackItems {
  import opened Options
  import opened Text
  import opened AtcTypes
  import opened ReadbackTokens

  // ── Items ───────────────────────────────────────────────────────────────────

  datatype Item =
    | Neutral(w: string)
    | RunwayItem(number: string, side: Option<char>)
    | LevelItem(level: string)
    | FeetItem(feet: string)
    | FrequencyItem(whole: string, frac: string)
    | SquawkItem(code: string)
    | SpeedItem(knots: string)
    | SpeedMention

  /** As the controller writes it, as the voice says it, and with the runway spelled out as well. */
  datatype Form = Written | Spoken | SpelledOut

  predicate Figures(s: string, least: nat, most: nat) {
    least <= |s| <= most && AllDigits(s)
  }

  predicate ItemOk(it: Item) {
    match it
    case Neutral(_) | SpeedMention => true
    case RunwayItem(n, side) => Figures(n, 1, 2) && (side.Some? ==> side.value in {'l', 'r', 'c'})
    case LevelItem(s) => Figures(s, 1, 3)
    case FeetItem(s) => Figures(s, 3, 5)
    case FrequencyItem(w, f) => Figures(w, 3, 3) && Figures(f, 3, 3)
    case SquawkItem(s) => Figures(s, 4, 4)
    case SpeedItem(s) => Figures(s, 2, 3)
  }

  predicate ItemsOk(items: seq<Item>) {
    forall i :: 0 <= i < |items| ==> ItemOk(items[i])
  }

  /** A word without a value: a neutral one, or "speed" on its own. */
  predicate Wordy(it: Item) {
    it.Neutral? || it.SpeedMention?
  }

  /** Of two neighbours at least one is a word without a value. */
  predicate Spaced(items: seq<Item>) {
    |items| >= 2 ==> (Wordy(items[0]) || Wordy(items[1])) && Spaced(items[1..])
  }

  // ── What is heard ───────────────────────────────────────────────────────────

  function SideTokens(n: string, side: Option<char>, form: Form): seq<Token> {
    match side
    case None => [Digits(n)]
    case Some(c) => if form == Written then [Designator(n, c)] else [Digits(n), Word(Side(c))]
  }

  /** Spelled digits after they were merged two by two. */
  function PairedDigits(s: string): seq<Token> {
    if |s| <= 2 then [Digits(s)] else [Digits(s[..2])] + PairedDigits(s[2..])
  }

  function FiguresHeard(s: string, form: Form): seq<Token> {
    if form == Written then [Digits(s)] else PairedDigits(s)
  }

  function HeardItem(it: Item, form: Form): (ts: seq<Token>)
    ensures ts != []
  {
    match it
    case Neutral(_) => [Word(Plain)]
    case RunwayItem(n, side) => [Word(RunwayWord)] + SideTokens(n, side, form)
    case LevelItem(s) => [Word(Flight), Word(Level)] + FiguresHeard(s, form)
    case FeetItem(s) => [Digits(s), Word(Feet)]
    case FrequencyItem(w, f) => [Dotted(w, f)]
    case SquawkItem(s) => [Word(SquawkWord)] + FiguresHeard(s, form)
    case SpeedItem(s) => [Word(SpeedWord), Digits(s), Word(Knots(true))]
    case SpeedMention => [Word(SpeedWord)]
  }

  function Heard(items: seq<Item>, form: Form): seq<Token> {
    if items == [] then [] else HeardItem(items[0], form) + Heard(items[1..], form)
  }

  /** What may follow an item: nothing, or a word without a value. */
  predicate Open(rest: seq<Token>) {
    rest != [] ==> rest[0] == Word(Plain) || rest[0] == Word(SpeedWord)
  }

  lemma AfterItem(items: seq<Item>, form: Form)
    requires items != [] && ItemsOk(items) && Spaced(items)
    ensures ItemOk(items[0]) && ItemsOk(items[1..]) && Spaced(items[1..])
    ensures Heard(items, form) == HeardItem(items[0], form) + Heard(items[1..], form)
    ensures !Wordy(items[0]) ==> Open(Heard(items[1..], form))
  {}

  // ── What the clearance says ─────────────────────────────────────────────────

  function FirstRunway(items: seq<Item>): Option<nat> {
    if items == [] then None
    else if items[0].RunwayItem? && AllDigits(items[0].number) then Some(NumberOf(items[0].number))
    else FirstRunway(items[1..])
  }

  function FirstSide(items: seq<Item>): Option<char> {
    if items == [] then None
    else if items[0].RunwayItem? && items[0].side.Some? then items[0].side
    else FirstSide(items[1..])
  }

  function FirstLevel(items: seq<Item>): nat {
    if items == [] then 0 else if items[0].LevelItem? then Value(items[0].level) else FirstLevel(items[1..])
  }

  function FirstFeet(items: seq<Item>): nat {
    if items == [] then 0 else if items[0].FeetItem? then Value(items[0].feet) else FirstFeet(items[1..])
  }

  function FirstFrequency(items: seq<Item>): Option<string> {
    if items == [] then None
    else if items[0].FrequencyItem? then Some(items[0].whole + "." + items[0].frac)
    else FirstFrequency(items[1..])
  }

  function FirstSquawk(items: seq<Item>): Option<string> {
    if items == [] then None else if items[0].SquawkItem? then Some(items[0].code) else FirstSquawk(items[1..])
  }

  /** The digits that an item says first, up to the first space between them. */
  function FirstFigures(it: Item, form: Form): string {
    match it
    case RunwayItem(n, _) => n
    case LevelItem(s) => if form == Written then s else First(s, 2)
    case FeetItem(s) => s
    case FrequencyItem(w, _) => w
    case SquawkItem(s) => if form == Written then s else First(s, 2)
    case SpeedItem(s) => s
    case _ => ""
  }

  /** The first digits that are said at all. */
  function NextFigures(items: seq<Item>, form: Form): string {
    if items == [] then ""
    else if Wordy(items[0]) then NextFigures(items[1..], form)
    else FirstFigures(items[0], form)
  }

  /** "speed" takes the next digits, if there are two of them, for a speed, whatever they belong to. */
  function FirstSpeed(items: seq<Item>, form: Form): Option<nat> {
    if items == [] then None
    else if items[0].SpeedItem? then Some(Value(items[0].knots))
    else if items[0].SpeedMention? && |NextFigures(items[1..], form)| >= 2
    then Some(Value(First(NextFigures(items[1..], form), 3)))
    else FirstSpeed(items[1..], form)
  }

  // ── Which tokens an item can contain ────────────────────────────────────────

  predicate Own(it: Item, t: Token) {
    match t
    case Digits(_) => !Wordy(it) && !it.FrequencyItem?
    case Dotted(_, _) => it.FrequencyItem?
    case Designator(_, _) => it.RunwayItem?
    case Dot => false
    case Word(k) =>
      match it
      case Neutral(_) => k == Plain
      case RunwayItem(_, _) => k == RunwayWord || k.Side?
      case LevelItem(_) => k == Flight || k == Level
      case FeetItem(_) => k == Feet
      case FrequencyItem(_, _) => false
      case SquawkItem(_) => k == SquawkWord
      case SpeedItem(_) => k == SpeedWord || k == Knots(true)
      case SpeedMention => k == SpeedWord
  }

  lemma {:induction false} PairedAreDigits(s: string)
    ensures forall t :: t in PairedDigits(s) ==> t.Digits?
    decreases |s|
  {
    if |s| > 2 {
      PairedAreDigits(s[2..]);
    }
  }

  lemma PairedShape(s: string)
    requires 1 <= |s| <= 4
    ensures PairedDigits(s) == if |s| <= 2 then [Digits(s)] else [Digits(s[..2]), Digits(s[2..])]
  {}

  lemma OwnTokens(it: Item, form: Form)
    ensures forall t :: t in HeardItem(it, form) ==> Own(it, t)
  {
    match it
    case LevelItem(s) => PairedAreDigits(s);
    case SquawkItem(s) => PairedAreDigits(s);
    case _ =>
  }

  lemma {:induction false} HeardTokens(items: seq<Item>, form: Form, t: Token)
    requires t in Heard(items, form)
    ensures exists it :: it in items && Own(it, t)
    decreases |items|
  {
    if t in HeardItem(items[0], form) {
      OwnTokens(items[0], form);
      assert items[0] in items && Own(items[0], t);
    } else {
      HeardTokens(items[1..], form, t);
      var it :| it in items[1..] && Own(it, t);
      assert it in items;
    }
  }

  // ── Runways ─────────────────────────────────────────────────────────────────

  lemma {:induction false} NumberSkips(anchor: Kind, block: seq<Token>, rest: seq<Token>)
    requires Word(anchor) !in block
    ensures NumberAfter(anchor, block + rest) == NumberAfter(anchor, rest)
    decreases |block|
  {
    if block == [] {
      assert block + rest == rest;
    } else {
      assert (block + rest)[1..] == block[1..] + rest;
      NumberSkips(anchor, block[1..], rest);
    }
  }

  lemma NumberOfRunway(n: string, side: Option<char>, form: Form, rest: seq<Token>)
    requires ItemOk(RunwayItem(n, side))
    ensures NumberAfter(RunwayWord, HeardItem(RunwayItem(n, side), form) + rest) == Some(NumberOf(n))
  {
    var ts := HeardItem(RunwayItem(n, side), form) + rest;
    assert ts[1..][0] == SideTokens(n, side, form)[0];
  }

  lemma {:induction false} RunwayNumberHeard(items: seq<Item>, form: Form)
    requires ItemsOk(items)
    ensures NumberAfter(RunwayWord, Heard(items, form)) == FirstRunway(items)
    decreases |items|
  {
    if items != [] {
      var it, rest := items[0], Heard(items[1..], form);
      if it.RunwayItem? {
        NumberOfRunway(it.number, it.side, form, rest);
      } else {
        OwnTokens(it, form);
        NumberSkips(RunwayWord, HeardItem(it, form), rest);
        RunwayNumberHeard(items[1..], form);
      }
    }
  }

  lemma NoApproachHeard(items: seq<Item>, form: Form)
    ensures NumberAfter(Approach, Heard(items, form)) == None
  {
    var ts := Heard(items, form);
    if Word(Approach) in ts {
      HeardTokens(items, form, Word(Approach));
    }
    NumberSkips(Approach, ts, []);
    assert ts + [] == ts;
  }

  lemma {:induction false} SideSkips(block: seq<Token>, rest: seq<Token>)
    requires Word(RunwayWord) !in block && Word(Approach) !in block
    ensures ExtractSide(block + rest) == ExtractSide(rest)
    decreases |block|
  {
    if block == [] {
      assert block + rest == rest;
    } else {
      assert (block + rest)[1..] == block[1..] + rest;
      SideSkips(block[1..], rest);
    }
  }

  lemma SideOfRunway(n: string, side: Option<char>, form: Form, rest: seq<Token>)
    requires ItemOk(RunwayItem(n, side)) && Open(rest)
    ensures ExtractSide(HeardItem(RunwayItem(n, side), form) + rest) == if side.Some? then side else ExtractSide(rest)
  {
    var ts, tail := HeardItem(RunwayItem(n, side), form) + rest, SideTokens(n, side, form);
    assert ts[1..] == tail + rest && tail[0] != Word(RunwayWord);
    assert PastRunway(ts[1..]) == tail + rest;
    if side.None? {
      assert tail + rest == [Digits(n)] + rest;
      assert SideHere(tail + rest) == None;
      SideSkips(tail, rest);
    } else if form != Written {
      assert (tail + rest)[1] == Word(Side(side.value));
    }
  }

  lemma {:induction false} SideHeard(items: seq<Item>, form: Form)
    requires ItemsOk(items) && Spaced(items)
    ensures ExtractSide(Heard(items, form)) == FirstSide(items)
    decreases |items|
  {
    if items != [] {
      var it, rest := items[0], Heard(items[1..], form);
      AfterItem(items, form);
      SideHeard(items[1..], form);
      if it.RunwayItem? {
        SideOfRunway(it.number, it.side, form, rest);
      } else {
        OwnTokens(it, form);
        SideSkips(HeardItem(it, form), rest);
      }
    }
  }

  function ClearedRunway(items: seq<Item>): Option<RunwayName> {
    match FirstRunway(items) case None => None case Some(n) => Some(RunwayName(n, FirstSide(items)))
  }

  lemma DesignatorHeard(items: seq<Item>, form: Form)
    requires ItemsOk(items) && Spaced(items)
    ensures ExtractRunway(Heard(items, form)) == FirstRunway(items)
    ensures ExtractDesignator(Heard(items, form)) == ClearedRunway(items)
  {
    RunwayNumberHeard(items, form);
    NoApproachHeard(items, form);
    SideHeard(items, form);
  }

  // ── Levels ──────────────────────────────────────────────────────────────────

  predicate StartsLevel(t: Token) {
    t == Word(Fl) || t == Word(Flight)
  }

  lemma {:induction false} LevelSkips(block: seq<Token>, rest: seq<Token>)
    requires forall t :: t in block ==> !StartsLevel(t)
    ensures ExtractLevel(block + rest) == ExtractLevel(rest)
    decreases |block|
  {
    if block == [] {
      assert block + rest == rest;
    } else {
      assert (block + rest)[1..] == block[1..] + rest;
      assert block[0] in block;
      LevelSkips(block[1..], rest);
    }
  }

  lemma {:induction false} UpToPaired(n: nat, s: string, rest: seq<Token>)
    requires 1 <= |s| <= n && Open(rest)
    ensures UpTo(n, PairedDigits(s) + rest) == s && UpTo(n, [Digits(s)] + rest) == s
    decreases |s|
  {
    assert ([Digits(s)] + rest)[1..] == rest && s + "" == s;
    if |s| > 2 {
      var ts := PairedDigits(s) + rest;
      assert ts == [Digits(s[..2])] + (PairedDigits(s[2..]) + rest);
      assert ts[1..] == PairedDigits(s[2..]) + rest;
      UpToPaired(n - 2, s[2..], rest);
      assert s == s[..2] + s[2..];
    }
  }

  lemma LevelOfItem(s: string, form: Form, rest: seq<Token>)
    requires Figures(s, 1, 3) && Open(rest)
    ensures ExtractLevel(HeardItem(LevelItem(s), form) + rest) == Value(s)
  {
    var ts := HeardItem(LevelItem(s), form) + rest;
    assert ts[2..] == FiguresHeard(s, form) + rest;
    UpToPaired(3, s, rest);
  }

  lemma {:induction false} LevelHeard(items: seq<Item>, form: Form)
    requires ItemsOk(items) && Spaced(items)
    ensures ExtractLevel(Heard(items, form)) == FirstLevel(items)
    decreases |items|
  {
    if items != [] {
      var it, rest := items[0], Heard(items[1..], form);
      AfterItem(items, form);
      if it.LevelItem? {
        LevelOfItem(it.level, form, rest);
      } else {
        OwnTokens(it, form);
        LevelSkips(HeardItem(it, form), rest);
        LevelHeard(items[1..], form);
      }
    }
  }

  // ── Altitudes in feet ───────────────────────────────────────────────────────

  lemma {:induction false} FeetSkips(block: seq<Token>, rest: seq<Token>)
    requires Word(Feet) !in block && (rest != [] ==> rest[0] != Word(Feet))
    ensures FeetFigures(block + rest) == FeetFigures(rest)
    decreases |block|
  {
    if block == [] {
      assert block + rest == rest;
    } else {
      assert (block + rest)[1..] == block[1..] + rest;
      FeetSkips(block[1..], rest);
      if |block + rest| >= 2 {
        assert (block + rest)[1] == if |block| > 1 then block[1] else rest[0];
      }
    }
  }

  lemma HeardStart(items: seq<Item>, form: Form)
    ensures Heard(items, form) != [] ==> Heard(items, form)[0] != Word(Feet)
  {
    if items != [] {
      assert Heard(items, form)[0] == HeardItem(items[0], form)[0];
    }
  }

  lemma {:induction false} FeetFiguresHeard(items: seq<Item>, form: Form)
    requires ItemsOk(items)
    ensures FeetFigures(Heard(items, form)) == if FirstFeet(items) > 0 || FeetFigures(Heard(items, form)).Some?
                                               then Some(FirstFeet(items)) else None
    decreases |items|
  {
    if items != [] {
      var it, rest := items[0], Heard(items[1..], form);
      if it.FeetItem? {
        var ts := HeardItem(it, form) + rest;
        assert ts[0] == Digits(it.feet) && ts[1] == Word(Feet);
      } else {
        OwnTokens(it, form);
        HeardStart(items[1..], form);
        FeetSkips(HeardItem(it, form), rest);
        FeetFiguresHeard(items[1..], form);
      }
    }
  }

  lemma {:induction false} NoThousands(ts: seq<Token>)
    requires forall t :: t in ts && t.Word? ==> !t.k.Thousand?
    ensures FeetThousands(ts) == None
    decreases |ts|
  {
    if |ts| >= 2 {
      assert ts[1] in ts;
      NoThousands(ts[1..]);
    }
  }

  lemma {:induction false} NoHundreds(n: nat, ts: seq<Token>)
    requires forall t :: t in ts && t.Word? ==> !t.k.Hundred?
    ensures FiguresHundred(n, ts) == None
    decreases |ts|
  {
    if |ts| >= 2 {
      assert ts[1] in ts;
      NoHundreds(n, ts[1..]);
    }
  }

  lemma FeetHeard(items: seq<Item>, form: Form)
    requires ItemsOk(items)
    ensures ExtractFeet(Heard(items, form)) == FirstFeet(items)
  {
    var ts := Heard(items, form);
    FeetFiguresHeard(items, form);
    forall t | t in ts && t.Word?
      ensures !t.k.Thousand? && !t.k.Hundred?
    {
      HeardTokens(items, form, t);
    }
    NoThousands(ts);
    NoHundreds(3, ts);
  }

  // ── Frequencies ─────────────────────────────────────────────────────────────

  lemma {:induction false} DottedSkips(block: seq<Token>, rest: seq<Token>)
    requires forall t :: t in block ==> !t.Dotted?
    ensures DottedFrequency(block + rest) == DottedFrequency(rest)
    decreases |block|
  {
    if block == [] {
      assert block + rest == rest;
    } else {
      assert (block + rest)[1..] == block[1..] + rest;
      assert block[0] in block;
      DottedSkips(block[1..], rest);
    }
  }

  lemma {:induction false} DottedHeard(items: seq<Item>, form: Form)
    requires ItemsOk(items)
    ensures DottedFrequency(Heard(items, form)) == FirstFrequency(items)
    decreases |items|
  {
    if items != [] {
      var it, rest := items[0], Heard(items[1..], form);
      if it.FrequencyItem? {
        assert Heard(items, form)[0] == Dotted(it.whole, it.frac);
      } else {
        OwnTokens(it, form);
        DottedSkips(HeardItem(it, form), rest);
        DottedHeard(items[1..], form);
      }
    }
  }

  lemma {:induction false} NoDots(before: seq<Token>, ts: seq<Token>)
    requires Dot !in ts
    ensures SpacedFrequency(before, ts) == None
    decreases |ts|
  {
    if ts != [] {
      NoDots(before + [ts[0]], ts[1..]);
    }
  }

  lemma FrequencyHeard(items: seq<Item>, form: Form)
    requires ItemsOk(items)
    ensures ExtractFrequency(Heard(items, form)) == FirstFrequency(items)
  {
    DottedHeard(items, form);
    if Dot in Heard(items, form) {
      HeardTokens(items, form, Dot);
    }
    NoDots([], Heard(items, form));
  }

  // ── Squawk codes ────────────────────────────────────────────────────────────

  lemma {:induction false} SquawkSkips(block: seq<Token>, rest: seq<Token>)
    requires Word(SquawkWord) !in block
    ensures ExtractSquawk(block + rest) == ExtractSquawk(rest)
    decreases |block|
  {
    if block == [] {
      assert block + rest == rest;
    } else {
      assert (block + rest)[1..] == block[1..] + rest;
      SquawkSkips(block[1..], rest);
    }
  }

  lemma {:induction false} ExactlyPaired(s: string, rest: seq<Token>)
    requires 1 <= |s|
    ensures Exactly(|s|, PairedDigits(s) + rest) == Some(s) && Exactly(|s|, [Digits(s)] + rest) == Some(s)
    decreases |s|
  {
    assert ([Digits(s)] + rest)[1..] == rest && s + "" == s;
    if |s| > 2 {
      var ts := PairedDigits(s) + rest;
      assert ts == [Digits(s[..2])] + (PairedDigits(s[2..]) + rest);
      assert ts[1..] == PairedDigits(s[2..]) + rest;
      ExactlyPaired(s[2..], rest);
      assert s == s[..2] + s[2..];
    }
  }

  lemma SquawkOfItem(s: string, form: Form, rest: seq<Token>)
    requires Figures(s, 4, 4)
    ensures ExtractSquawk(HeardItem(SquawkItem(s), form) + rest) == Some(s)
  {
    var ts := HeardItem(SquawkItem(s), form) + rest;
    assert ts[1..] == FiguresHeard(s, form) + rest;
    ExactlyPaired(s, rest);
  }

  lemma {:induction false} SquawkHeard(items: seq<Item>, form: Form)
    requires ItemsOk(items)
    ensures ExtractSquawk(Heard(items, form)) == FirstSquawk(items)
    decreases |items|
  {
    if items != [] {
      var it, rest := items[0], Heard(items[1..], form);
      if it.SquawkItem? {
        SquawkOfItem(it.code, form, rest);
      } else {
        OwnTokens(it, form);
        SquawkSkips(HeardItem(it, form), rest);
        SquawkHeard(items[1..], form);
      }
    }
  }

  // ── Speeds ──────────────────────────────────────────────────────────────────

  lemma {:induction false} SpeedSkips(block: seq<Token>, rest: seq<Token>)
    requires Word(SpeedWord) !in block
    ensures SpeedAnchored(block + rest) == SpeedAnchored(rest)
    decreases |block|
  {
    if block == [] {
      assert block + rest == rest;
    } else {
      assert (block + rest)[1..] == block[1..] + rest;
      SpeedSkips(block[1..], rest);
    }
  }

  lemma PastWord(k: Kind, ts: seq<Token>)
    ensures PastWords([Word(k)] + ts) == PastWords(ts)
  {
    assert ([Word(k)] + ts)[1..] == ts;
  }

  lemma {:induction false} PastAllWords(words: seq<Token>, t: Token, ts: seq<Token>)
    requires (forall i :: 0 <= i < |words| ==> words[i].Word?) && !t.Word?
    ensures PastWords(words + ([t] + ts)) == [t] + ts
    decreases |words|
  {
    if words == [] {
      assert words + ([t] + ts) == [t] + ts;
    } else {
      assert words + ([t] + ts) == [words[0]] + (words[1..] + ([t] + ts));
      PastWord(words[0].k, words[1..] + ([t] + ts));
      PastAllWords(words[1..], t, ts);
    }
  }

  /** The token that comes first when the words of an item are passed over. */
  function FirstToken(it: Item, form: Form): Token
    requires ItemOk(it) && !Wordy(it)
  {
    match it
    case RunwayItem(n, side) => SideTokens(n, side, form)[0]
    case LevelItem(s) => FiguresHeard(s, form)[0]
    case FeetItem(s) => Digits(s)
    case FrequencyItem(w, f) => Dotted(w, f)
    case SquawkItem(s) => FiguresHeard(s, form)[0]
    case SpeedItem(s) => Digits(s)
  }

  lemma FirstTokenSays(it: Item, form: Form)
    requires ItemOk(it) && !Wordy(it)
    ensures !FirstToken(it, form).Word? && Head(FirstToken(it, form)) == FirstFigures(it, form)
  {
    match it
    case LevelItem(s) => PairedShape(s);
    case SquawkItem(s) => PairedShape(s);
    case _ =>
  }

  /** The words before the first digits of an item, and what follows the first digits. */
  function WordsBefore(it: Item): seq<Token> {
    match it
    case RunwayItem(_, _) => [Word(RunwayWord)]
    case LevelItem(_) => [Word(Flight), Word(Level)]
    case SquawkItem(_) => [Word(SquawkWord)]
    case SpeedItem(_) => [Word(SpeedWord)]
    case _ => []
  }

  function AfterFirst(it: Item, form: Form): seq<Token>
    requires ItemOk(it) && !Wordy(it)
  {
    match it
    case RunwayItem(n, side) => SideTokens(n, side, form)[1..]
    case LevelItem(s) => FiguresHeard(s, form)[1..]
    case FeetItem(_) => [Word(Feet)]
    case FrequencyItem(_, _) => []
    case SquawkItem(s) => FiguresHeard(s, form)[1..]
    case SpeedItem(_) => [Word(Knots(true))]
  }

  lemma HeadFirst<T>(words: seq<T>, figures: seq<T>)
    requires figures != []
    ensures words + figures == words + ([figures[0]] + figures[1..])
  {}

  lemma HeardInParts(it: Item, form: Form)
    requires ItemOk(it) && !Wordy(it)
    ensures HeardItem(it, form) == WordsBefore(it) + ([FirstToken(it, form)] + AfterFirst(it, form))
  {
    match it
    case RunwayItem(n, side) => HeadFirst([Word(RunwayWord)], SideTokens(n, side, form));
    case LevelItem(s) => HeadFirst([Word(Flight), Word(Level)], FiguresHeard(s, form));
    case SquawkItem(s) => HeadFirst([Word(SquawkWord)], FiguresHeard(s, form));
    case _ =>
  }

  lemma PastItem(it: Item, form: Form, rest: seq<Token>)
    requires ItemOk(it) && !Wordy(it)
    ensures var r := PastWords(HeardItem(it, form) + rest); r != [] && r[0] == FirstToken(it, form)
  {
    var words, t, tail := WordsBefore(it), FirstToken(it, form), AfterFirst(it, form);
    FirstTokenSays(it, form);
    HeardInParts(it, form);
    PartsFollowed(words, t, tail, rest);
    PastAllWords(words, t, tail + rest);
  }

  lemma PartsFollowed<T>(words: seq<T>, t: T, tail: seq<T>, rest: seq<T>)
    ensures (words + ([t] + tail)) + rest == words + ([t] + (tail + rest))
  {}

  /** The first digits after any words, in terms of the items. */
  lemma {:induction false} NextHeard(items: seq<Item>, form: Form)
    requires ItemsOk(items)
    ensures var r := PastWords(Heard(items, form)); NextFigures(items, form) == if r == [] then "" else Head(r[0])
    decreases |items|
  {
    if items != [] {
      var it, rest := items[0], Heard(items[1..], form);
      if Wordy(it) {
        PastWord(HeardItem(it, form)[0].k, rest);
        NextHeard(items[1..], form);
      } else {
        PastItem(it, form, rest);
        FirstTokenSays(it, form);
      }
    }
  }

  lemma {:induction false} SpeedAnchoredHeard(items: seq<Item>, form: Form)
    requires ItemsOk(items)
    ensures SpeedAnchored(Heard(items, form)) == FirstSpeed(items, form)
    ensures FirstSpeed(items, form) == None ==> forall it :: it in items ==> !it.SpeedItem?
    decreases |items|
  {
    if items != [] {
      var it, rest := items[0], Heard(items[1..], form);
      if it.SpeedItem? {
        var ts := HeardItem(it, form) + rest;
        assert ts[0] == Word(SpeedWord) && ts[1..][0] == Digits(it.knots);
        assert PastWords(ts[1..]) == ts[1..];
      } else {
        SpeedAnchoredHeard(items[1..], form);
        if it.SpeedMention? {
          assert ([Word(SpeedWord)] + rest)[1..] == rest;
          NextHeard(items[1..], form);
        } else {
          OwnTokens(it, form);
          SpeedSkips(HeardItem(it, form), rest);
        }
      }
    }
  }

  lemma SpeedHeard(items: seq<Item>, form: Form)
    requires ItemsOk(items)
    ensures ExtractSpeed(Heard(items, form)) == FirstSpeed(items, form)
  {
    var ts := Heard(items, form);
    SpeedAnchoredHeard(items, form);
    if FirstSpeed(items, form) == None && MentionsKnots(ts) {
      var i :| 0 <= i < |ts| && ts[i].Word? && ts[i].k.Knots?;
      HeardTokens(items, form, ts[i]);
    }
  }

  // ── When a speed is read alike in writing and in speech ─────────────────────

  /** The spelled digits of an item start as the written ones do, up to the digits that a speed takes. */
  predicate SpelledAlike(it: Item) {
    match it
    case LevelItem(s) => |s| < 3 || s == "000"
    case SquawkItem(s) => |s| >= 3 && s[..3] == "000"
    case _ => true
  }

  /** The item whose digits come next, if any. */
  function NextItem(items: seq<Item>): Option<Item> {
    if items == [] then None else if Wordy(items[0]) then NextItem(items[1..]) else Some(items[0])
  }

  /**
   * The first "speed" that takes digits takes its own, or those of an item that does not start with three
   * digits spoken one by one: no squawk code and no level of three digits, other than zeros.
   */
  predicate SpeedReadsAlike(items: seq<Item>) {
    if items == [] || items[0].SpeedItem? then true
    else if items[0].SpeedMention? && |NextFigures(items[1..], Written)| >= 2
    then NextItem(items[1..]).Some? && SpelledAlike(NextItem(items[1..]).value)
    else SpeedReadsAlike(items[1..])
  }

  lemma {:induction false} NextOfNextItem(items: seq<Item>, form: Form)
    ensures NextFigures(items, form) == if NextItem(items).None? then "" else FirstFigures(NextItem(items).value, form)
    ensures NextItem(items).Some? ==> NextItem(items).value in items && !Wordy(NextItem(items).value)
    decreases |items|
  {
    if items != [] {
      NextOfNextItem(items[1..], form);
    }
  }

  lemma ThreeOrTwo(s: string)
    requires |s| >= 3 && AllDigits(s)
    ensures Value(First(s, 3)) == Value(First(s, 2)) <==> s[..3] == "000"
    ensures s[..3] != "000" ==> Value(First(s, 3)) > 0
  {
    var t := First(s, 3);
    assert t == s[..3] && First(s, 2) == t[..2] && t[..2][..1] == t[..1];
    assert NumberOf(t) == NumberOf(t[..2]) * 10 + DigitValue(t[2]);
    assert NumberOf(t[..2]) == NumberOf(t[..1]) * 10 + DigitValue(t[1]);
    assert t[..1][..0] == "" && NumberOf(t[..1]) == DigitValue(t[0]);
    assert t == [t[0], t[1], t[2]];
  }

  lemma FiguresAlike(it: Item)
    requires ItemOk(it) && !Wordy(it) && |FirstFigures(it, Written)| >= 2
    ensures forall form :: form != Written ==> |FirstFigures(it, form)| >= 2
    ensures forall form :: form != Written ==>
      (Value(First(FirstFigures(it, form), 3)) == Value(First(FirstFigures(it, Written), 3)) <==> SpelledAlike(it))
    ensures !SpelledAlike(it) ==> Value(First(FirstFigures(it, Written), 3)) > 0
  {
    match it
    case LevelItem(s) =>
      if |s| == 3 {
        ThreeOrTwo(s);
        assert s[..3] == s && First(First(s, 2), 3) == First(s, 2);
      }
    case SquawkItem(s) =>
      ThreeOrTwo(s);
      assert First(First(s, 2), 3) == First(s, 2);
    case _ =>
  }

  lemma FewFigures(it: Item, form: Form)
    requires ItemOk(it) && !Wordy(it) && |FirstFigures(it, Written)| < 2
    ensures FirstFigures(it, form) == FirstFigures(it, Written)
  {}

  /** Exactly when a speed is heard in speech as it is read in writing. */
  lemma {:induction false} SpeedAlikeExactly(items: seq<Item>, form: Form)
    requires ItemsOk(items) && form != Written
    ensures FirstSpeed(items, form) == FirstSpeed(items, Written) <==> SpeedReadsAlike(items)
    ensures !SpeedReadsAlike(items) ==> HasSpeed(FirstSpeed(items, Written))
    decreases |items|
  {
    if items != [] {
      SpeedAlikeExactly(items[1..], form);
      if items[0].SpeedMention? {
        NextOfNextItem(items[1..], form);
        NextOfNextItem(items[1..], Written);
        if NextItem(items[1..]).Some? {
          var it := NextItem(items[1..]).value;
          if |FirstFigures(it, Written)| >= 2 {
            FiguresAlike(it);
          } else {
            FewFigures(it, form);
          }
        }
      }
    }
  }

  lemma {:induction false} NoMentionReadsAlike(items: seq<Item>)
    requires forall i :: 0 <= i < |items| ==> !items[i].SpeedMention?
    ensures SpeedReadsAlike(items)
    decreases |items|
  {
    if items != [] {
      NoMentionReadsAlike(items[1..]);
    }
  }
}
