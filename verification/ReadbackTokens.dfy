/** The read-back verifier on tokens: normalisation, field extractors, comparison. */
module ReadbackTokens {
  import opened Options
  import opened Text
  import opened AtcTypes
  import Replace

  // ── Tokens ──────────────────────────────────────────────────────────────────

  /** What the extractors can tell about a word of letters. */
  datatype Kind =
    | RunwayWord | Approach | Flight | Level | Fl | Feet
    | Thousand(exact: bool) | Hundred(exact: bool)
    | SpeedWord | Knots(first: bool) | SquawkWord | Side(c: char) | And | Low(n: nat) | Plain

  /** A space-separated piece of normalised text. */
  datatype Token = Digits(s: string) | Dotted(w: string, f: string) | Designator(n: string, c: char) | Dot | Word(k: Kind)

  /** What a word is: its kind, or the digit or dot that it stands for. */
  datatype Lexis = Lexis(kind: string -> Kind, digit: string -> Option<nat>, dot: string -> bool)

  function NoCommas(w: string): string {
    if w == "" then "" else (if w[0] == ',' then "" else [w[0]]) + NoCommas(w[1..])
  }

  predicate IsDotted(s: string) {
    |s| == 7 && AllDigits(s[..3]) && s[3] == '.' && AllDigits(s[4..])
  }

  predicate IsDesignator(s: string) {
    |s| >= 2 && AllDigits(s[..|s|-1]) && s[|s|-1] in {'l', 'r', 'c'}
  }

  /** A word after lower-casing, without commas, with spelled digits and "decimal" replaced. */
  function Lex(lx: Lexis, w: string): Token {
    var s := NoCommas(LowerAll(w));
    if lx.digit(s).Some? && lx.digit(s).value < 10 then Digits([DigitChar(lx.digit(s).value)])
    else if lx.dot(s) then Dot
    else if s != "" && AllDigits(s) then Digits(s)
    else if IsDotted(s) then Dotted(s[..3], s[4..])
    else if IsDesignator(s) then Designator(s[..|s|-1], s[|s|-1])
    else Word(lx.kind(s))
  }

  function LexAll(lx: Lexis, ws: seq<string>): (ts: seq<Token>)
    ensures |ts| == |ws|
  {
    if ws == [] then [] else [Lex(lx, ws[0])] + LexAll(lx, ws[1..])
  }

  // ── Compacting spaced digits ────────────────────────────────────────────────

  predicate Single(t: Token) {
    t.Digits? && |t.s| == 1
  }

  /** One replacing pass: single digits are merged two by two, from the left. */
  function Pairs(ts: seq<Token>): seq<Token> {
    if |ts| < 2 then ts
    else if Single(ts[0]) && Single(ts[1]) then [Digits(ts[0].s + ts[1].s)] + Pairs(ts[2..])
    else [ts[0]] + Pairs(ts[1..])
  }

  /** Nothing is left to merge. */
  lemma {:induction false} PairsOnce(ts: seq<Token>)
    ensures Pairs(Pairs(ts)) == Pairs(ts)
    ensures ts != [] ==> Pairs(ts) != [] && (Single(Pairs(ts)[0]) ==> Pairs(ts)[0] == ts[0])
    decreases |ts|
  {
    if |ts| >= 2 {
      if Single(ts[0]) && Single(ts[1]) {
        PairsOnce(ts[2..]);
        PairsThrough(Digits(ts[0].s + ts[1].s), Pairs(ts[2..]));
      } else {
        PairsOnce(ts[1..]);
        PairsThrough(ts[0], Pairs(ts[1..]));
      }
    }
  }

  lemma PairsThrough(t: Token, ts: seq<Token>)
    requires Single(t) && ts != [] ==> !Single(ts[0])
    ensures Pairs([t] + ts) == [t] + Pairs(ts)
  {
    assert ([t] + ts)[1..] == ts;
    if ts == [] {
      assert [t] + ts == [t];
    }
  }

  /** Replacing until nothing changes is replacing once: "1 6 6 1" stops at "16 61". */
  method CompactDigitSpaces(ts: seq<Token>) returns (cur: seq<Token>)
    ensures cur == Pairs(ts)
  {
    cur := Pairs(ts);
    var prev := ts;
    PairsOnce(ts);
    while cur != prev
      invariant cur == Pairs(ts)
      decreases if cur == prev then 0 else if prev == Pairs(ts) then 1 else 2
    {
      prev := cur;
      cur := Pairs(prev);
    }
  }

  // ── Extractors ──────────────────────────────────────────────────────────────

  /** The digits that start, and that end, a token. */
  function Head(t: Token): string {
    match t case Digits(s) => s case Dotted(w, _) => w case Designator(n, _) => n case _ => ""
  }

  function Tail(t: Token): string {
    match t case Digits(s) => s case Dotted(_, f) => f case _ => ""
  }

  function Last(s: string, n: nat): string {
    if |s| <= n then s else s[|s| - n..]
  }

  function First(s: string, n: nat): string {
    if |s| <= n then s else s[..n]
  }

  /** "runway" may stand before the number that follows "approach". */
  function PastRunway(ts: seq<Token>): seq<Token> {
    if ts != [] && ts[0] == Word(RunwayWord) then ts[1..] else ts
  }

  predicate OneOrTwo(s: string) {
    1 <= |s| <= 2 && AllDigits(s)
  }

  /** The first number of one or two digits directly after `anchor`. */
  function NumberAfter(anchor: Kind, ts: seq<Token>): Option<nat> {
    if ts == [] then None
    else
      var more := if anchor == Approach then PastRunway(ts[1..]) else ts[1..];
      if ts[0] == Word(anchor) && more != [] && OneOrTwo(Head(more[0]))
      then Some(NumberOf(Head(more[0])))
      else NumberAfter(anchor, ts[1..])
  }

  function ExtractRunway(ts: seq<Token>): Option<nat> {
    var n := NumberAfter(RunwayWord, ts);
    if n.Some? then n else NumberAfter(Approach, ts)
  }

  /** The side that directly follows a runway number at the start of `ts`. */
  function SideHere(ts: seq<Token>): Option<char> {
    if ts == [] || !OneOrTwo(Head(ts[0])) then None
    else if ts[0].Designator? then Some(ts[0].c)
    else if ts[0].Digits? && |ts| > 1 && ts[1].Word? && ts[1].k.Side? then Some(ts[1].k.c)
    else None
  }

  /** The side of the first runway that has one. */
  function ExtractSide(ts: seq<Token>): Option<char> {
    if ts == [] then None
    else if (ts[0] == Word(RunwayWord) || ts[0] == Word(Approach)) && SideHere(PastRunway(ts[1..])).Some?
    then SideHere(PastRunway(ts[1..]))
    else ExtractSide(ts[1..])
  }

  /** A runway as it is compared: the number, and the side if any. */
  datatype RunwayName = RunwayName(number: nat, side: Option<char>)

  function ExtractDesignator(ts: seq<Token>): Option<RunwayName> {
    match ExtractRunway(ts)
    case None => None
    case Some(n) => Some(RunwayName(n, ExtractSide(ts)))
  }

  /** At most `n` digits, across tokens, that end where a token does. */
  function UpTo(n: nat, ts: seq<Token>): string {
    if ts == [] then ""
    else match ts[0]
      case Digits(s) => if |s| <= n then s + UpTo(n - |s|, ts[1..]) else ""
      case Dotted(w, _) => if |w| <= n then w else ""
      case _ => ""
  }

  /** What follows "fl" or "flight level" at the start of `ts`. */
  function AfterLevel(ts: seq<Token>): Option<seq<Token>> {
    if ts == [] then None
    else if ts[0] == Word(Fl) then Some(ts[1..])
    else if |ts| > 1 && ts[0] == Word(Flight) && ts[1] == Word(Level) then Some(ts[2..])
    else None
  }

  function Value(s: string): nat {
    if AllDigits(s) then NumberOf(s) else 0
  }

  function ExtractLevel(ts: seq<Token>): nat {
    if ts == [] then 0
    else if AfterLevel(ts).Some? && UpTo(3, AfterLevel(ts).value) != "" then Value(UpTo(3, AfterLevel(ts).value))
    else ExtractLevel(ts[1..])
  }

  /** "5000 feet". */
  function FeetFigures(ts: seq<Token>): Option<nat> {
    if |ts| < 2 then None
    else if |Tail(ts[0])| >= 3 && ts[1] == Word(Feet) then Some(Value(Last(Tail(ts[0]), 5)))
    else FeetFigures(ts[1..])
  }

  function Hundreds(ts: seq<Token>): nat {
    if |ts| > 1 && OneOrTwo(Head(ts[0])) && ts[0].Digits? && ts[1].Word? && ts[1].k.Hundred? then Value(Head(ts[0])) * 100 else 0
  }

  /** "5 thousand 5 hundred". */
  function FeetThousands(ts: seq<Token>): Option<nat> {
    if |ts| < 2 then None
    else if Tail(ts[0]) != "" && ts[1].Word? && ts[1].k.Thousand?
    then Some(Value(Last(Tail(ts[0]), 2)) * 1000 + if ts[1].k.exact then Hundreds(ts[2..]) else 0)
    else FeetThousands(ts[1..])
  }

  /** `n` digits at most before "hundred". */
  function FiguresHundred(n: nat, ts: seq<Token>): Option<nat> {
    if |ts| < 2 then None
    else if Tail(ts[0]) != "" && ts[1].Word? && ts[1].k.Hundred? then Some(Value(Last(Tail(ts[0]), n)) * 100)
    else FiguresHundred(n, ts[1..])
  }

  function Else(o: Option<nat>, d: nat): nat {
    match o case Some(x) => x case None => d
  }

  function ExtractFeet(ts: seq<Token>): nat {
    if FeetFigures(ts).Some? then FeetFigures(ts).value
    else if FeetThousands(ts).Some? then FeetThousands(ts).value
    else Else(FiguresHundred(3, ts), 0)
  }

  /** "121.205". */
  function DottedFrequency(ts: seq<Token>): Option<string> {
    if ts == [] then None
    else if ts[0].Dotted? && |ts[0].w| == |ts[0].f| == 3 then Some(ts[0].w + "." + ts[0].f)
    else DottedFrequency(ts[1..])
  }

  /** `n` single-spaced digits that end a prefix, or start a suffix, of the text. */
  function DigitsUpTo(n: nat, ts: seq<Token>): string {
    if n == 0 || ts == [] || !ts[0].Digits? then ""
    else if |ts[0].s| >= n then First(ts[0].s, n)
    else ts[0].s + DigitsUpTo(n - |ts[0].s|, ts[1..])
  }

  function DigitsBack(n: nat, ts: seq<Token>): string {
    if n == 0 || ts == [] || !ts[|ts|-1].Digits? then ""
    else if |ts[|ts|-1].s| >= n then Last(ts[|ts|-1].s, n)
    else DigitsBack(n - |ts[|ts|-1].s|, ts[..|ts|-1]) + ts[|ts|-1].s
  }

  /** "1 2 1 . 2 0 5": a dot of its own between three digits and three digits; `before` has been read. */
  function SpacedFrequency(before: seq<Token>, ts: seq<Token>): Option<string>
    decreases |ts|
  {
    if ts == [] then None
    else if ts[0].Dot? && |DigitsBack(3, before)| == 3 && |DigitsUpTo(3, ts[1..])| == 3
    then Some(DigitsBack(3, before) + "." + DigitsUpTo(3, ts[1..]))
    else SpacedFrequency(before + [ts[0]], ts[1..])
  }

  function ExtractFrequency(ts: seq<Token>): Option<string> {
    var s := DottedFrequency(ts);
    if s.Some? then s else SpacedFrequency([], ts)
  }

  /** Exactly `n` digits, whatever separates them, that end where a token does. */
  function Exactly(n: nat, ts: seq<Token>): Option<string>
    decreases |ts|
  {
    if n == 0 then Some("")
    else if ts == [] then None
    else match ts[0]
      case Digits(s) => if |s| <= n then Prefixed(s, Exactly(n - |s|, ts[1..])) else None
      case Dotted(w, f) =>
        if |w| == n then Some(w)
        else if |w + f| <= n then Prefixed(w + f, Exactly(n - |w + f|, ts[1..]))
        else None
      case Dot => Exactly(n, ts[1..])
      case _ => None
  }

  function Prefixed(s: string, o: Option<string>): Option<string> {
    match o case Some(x) => Some(s + x) case None => None
  }

  function ExtractSquawk(ts: seq<Token>): Option<string> {
    if ts == [] then None
    else if ts[0] == Word(SquawkWord) && Exactly(4, ts[1..]).Some? then Exactly(4, ts[1..])
    else ExtractSquawk(ts[1..])
  }

  /** The first token that is no word. */
  function PastWords(ts: seq<Token>): (r: seq<Token>)
    ensures r != [] ==> !r[0].Word?
  {
    if ts == [] || !ts[0].Word? then ts else PastWords(ts[1..])
  }

  /** "reduce speed 210": two or three digits after "speed" and nothing but words. */
  function SpeedAnchored(ts: seq<Token>): Option<nat> {
    if ts == [] then None
    else if ts[0] == Word(SpeedWord) && (var r := PastWords(ts[1..]); r != [] && |Head(r[0])| >= 2)
    then Some(Value(First(Head(PastWords(ts[1..])[0]), 3)))
    else SpeedAnchored(ts[1..])
  }

  predicate MentionsKnots(ts: seq<Token>) {
    exists i :: 0 <= i < |ts| && ts[i].Word? && ts[i].k.Knots?
  }

  function FiguresKnots(ts: seq<Token>): Option<nat> {
    if |ts| < 2 then None
    else if |Tail(ts[0])| >= 2 && ts[1] == Word(Knots(true)) then Some(Value(Last(Tail(ts[0]), 3)))
    else FiguresKnots(ts[1..])
  }

  /** The part below one hundred that follows "hundred" and perhaps "and". */
  function Remainder(ts: seq<Token>): Option<nat> {
    if ts == [] then None
    else if Head(ts[0]) != "" then Some(Value(First(Head(ts[0]), 2)))
    else if ts[0].Word? && ts[0].k.Low? then Some(ts[0].k.n)
    else None
  }

  /** "2 hundred 10". */
  function HundredCompound(ts: seq<Token>): Option<nat> {
    if |ts| < 3 then None
    else
      var more := if ts[2] == Word(And) then ts[3..] else ts[2..];
      if Tail(ts[0]) != "" && ts[1] == Word(Hundred(true)) && Remainder(more).Some?
      then Some(Value(Last(Tail(ts[0]), 1)) * 100 + Remainder(more).value)
      else HundredCompound(ts[1..])
  }

  predicate Enough(o: Option<nat>) {
    o.Some? && o.value >= 100
  }

  function ExtractSpeed(ts: seq<Token>): Option<nat> {
    if SpeedAnchored(ts).Some? then SpeedAnchored(ts)
    else if !MentionsKnots(ts) then None
    else if Enough(FiguresKnots(ts)) then FiguresKnots(ts)
    else if Enough(HundredCompound(ts)) then HundredCompound(ts)
    else if Enough(FiguresHundred(1, ts)) then FiguresHundred(1, ts)
    else None
  }

  // ── Is the number anywhere in the read-back? ────────────────────────────────

  /** "200 10" is 210: a number that ends in two zeros after a digit, and one or two digits more. */
  function Compound(s: string, more: string): Option<string> {
    if |s| >= 3 && AllDigits(s) && s[|s|-2..] == "00" && OneOrTwo(more)
    then Some(s[..|s|-3] + Numeral(DigitValue(s[|s|-3]) * 100 + NumberOf(more)))
    else None
  }

  function Compounds(ts: seq<Token>): seq<Token> {
    if |ts| < 2 then ts
    else if ts[1].Digits? && ts[0].Digits? && Compound(ts[0].s, ts[1].s).Some?
    then [Digits(Compound(ts[0].s, ts[1].s).value)] + Compounds(ts[2..])
    else if ts[1].Digits? && ts[0].Dotted? && Compound(ts[0].f, ts[1].s).Some?
    then [Dotted(ts[0].w, Compound(ts[0].f, ts[1].s).value)] + Compounds(ts[2..])
    else [ts[0]] + Compounds(ts[1..])
  }

  /** The runs of digits once the spaces between digits are gone; `cur` is the run being read. */
  function Runs(ts: seq<Token>, cur: string): seq<string> {
    if ts == [] then [cur]
    else match ts[0]
      case Digits(s) => Runs(ts[1..], cur + s)
      case Dotted(w, f) => [cur + w] + Runs(ts[1..], f)
      case Designator(n, _) => [cur + n] + Runs(ts[1..], "")
      case _ => [cur] + Runs(ts[1..], "")
  }

  predicate InRuns(runs: seq<string>, target: string) {
    exists r, i :: 0 <= r < |runs| && 0 <= i <= |runs[r]| && Replace.Occurs(runs[r], target, i)
  }

  predicate ReadbackContains(ts: seq<Token>, value: nat) {
    InRuns(Runs(ts, ""), Numeral(value)) || InRuns(Runs(Compounds(ts), ""), Numeral(value))
  }

  // ── Comparison ──────────────────────────────────────────────────────────────

  /** A field of the clearance that the read-back does not state. */
  datatype Fault = Fault(field: Field, negative: bool)

  predicate Near(a: nat, b: nat) {
    a <= b + 100 && b <= a + 100
  }

  function If(b: bool, field: Field, stated: bool): seq<Fault> {
    if b then [Fault(field, stated)] else []
  }

  predicate HasSpeed(o: Option<nat>) {
    o.Some? && o.value > 0
  }

  function RunwayFaults(cl: seq<Token>, rb: seq<Token>): seq<Fault> {
    var c, r := ExtractDesignator(cl), ExtractDesignator(rb);
    If(c.Some? && r != c, Runway, r.Some?)
  }

  function LevelFaults(cl: seq<Token>, rb: seq<Token>): seq<Fault> {
    var c, r := ExtractLevel(cl), ExtractLevel(rb);
    If(c > 0 && r != c && !ReadbackContains(rb, c), FlightLevel, r > 0)
  }

  function FeetFaults(cl: seq<Token>, rb: seq<Token>): seq<Fault> {
    var c, r := ExtractFeet(cl), ExtractFeet(rb);
    If(ExtractLevel(cl) == 0 && c > 0 && (r == 0 || !Near(r, c)) && !ReadbackContains(rb, c), Altitude, r > 0)
  }

  function FrequencyFaults(cl: seq<Token>, rb: seq<Token>): seq<Fault> {
    var c, r := ExtractFrequency(cl), ExtractFrequency(rb);
    If(c.Some? && r != c, Frequency, r.Some?)
  }

  function SquawkFaults(cl: seq<Token>, rb: seq<Token>): seq<Fault> {
    var c, r := ExtractSquawk(cl), ExtractSquawk(rb);
    If(c.Some? && r != c, Squawk, r.Some?)
  }

  function SpeedFaults(cl: seq<Token>, rb: seq<Token>): seq<Fault> {
    var c, r := ExtractSpeed(cl), ExtractSpeed(rb);
    If(HasSpeed(c) && r != c && !ReadbackContains(rb, c.value), Speed, HasSpeed(r))
  }

  function Faults(cl: seq<Token>, rb: seq<Token>): seq<Fault> {
    RunwayFaults(cl, rb) + LevelFaults(cl, rb) + FeetFaults(cl, rb)
    + FrequencyFaults(cl, rb) + SquawkFaults(cl, rb) + SpeedFaults(cl, rb)
  }

  /** `fields_present`. */
  function Present(cl: seq<Token>): set<Field> {
    (if ExtractRunway(cl).Some? then {Runway} else {})
    + (if ExtractLevel(cl) > 0 then {FlightLevel} else {})
    + (if ExtractLevel(cl) == 0 && ExtractFeet(cl) > 0 then {Altitude} else {})
    + (if ExtractFrequency(cl).Some? then {Frequency} else {})
    + (if ExtractSquawk(cl).Some? then {Squawk} else {})
    + (if HasSpeed(ExtractSpeed(cl)) then {Speed} else {})
  }

  /** `matched_fields`. */
  function Matched(cl: seq<Token>, rb: seq<Token>): set<Field> {
    (if ExtractDesignator(cl).Some? && ExtractDesignator(rb) == ExtractDesignator(cl) then {Runway} else {})
    + (if ExtractLevel(cl) > 0 && ExtractLevel(rb) == ExtractLevel(cl) then {FlightLevel} else {})
    + (if ExtractLevel(cl) == 0 && ExtractFeet(cl) > 0 && ExtractFeet(rb) > 0 && Near(ExtractFeet(rb), ExtractFeet(cl))
       then {Altitude} else {})
    + (if ExtractFrequency(cl).Some? && ExtractFrequency(rb) == ExtractFrequency(cl) then {Frequency} else {})
    + (if ExtractSquawk(cl).Some? && ExtractSquawk(rb) == ExtractSquawk(cl) then {Squawk} else {})
    + (if HasSpeed(ExtractSpeed(cl)) && ExtractSpeed(rb) == ExtractSpeed(cl) then {Speed} else {})
  }
}
