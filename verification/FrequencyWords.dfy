/** The number words of a spoken VHF frequency, and how a run of them is read. */
module FrequencyWords {
  import opened Options
  import opened Text
  import opened TokenCollapse

  // ── Words ───────────────────────────────────────────────────────────────────

  /** The word tables: the value of a unit, teen or tens word (-1 for any other), the rest by name. */
  datatype Vocabulary = Vocabulary(
    unit: string -> int,
    teen: string -> int,
    tens: string -> int,
    hundred: string -> bool,
    sep: string -> bool)

  function NormChar(c: char): string {
    if IsAlnum(c) then [Lower(c)] else ""
  }

  /** Letters and digits only, in lower case. */
  function Norm(w: string): string {
    if w == "" then "" else NormChar(w[0]) + Norm(w[1..])
  }

  /** A bare group of one to three digits. */
  predicate IsDigitGroup(w: string) {
    1 <= |w| <= 3 && AllDigits(w)
  }

  predicate IsGroupWord(v: Vocabulary, w: string) {
    v.teen(w) >= 0 || v.tens(w) >= 0 || v.hundred(w)
  }

  predicate IsNumWord(v: Vocabulary, w: string) {
    v.unit(w) >= 0 || IsGroupWord(v, w) || IsDigitGroup(w)
  }

  // ── Reading a run ───────────────────────────────────────────────────────────

  /** A run is read as a cardinal when it has a group word and no digit group. */
  predicate IsCardinal(v: Vocabulary, run: seq<string>) {
    (forall i :: 0 <= i < |run| ==> !IsDigitGroup(run[i]))
    && exists i :: 0 <= i < |run| && IsGroupWord(v, run[i])
  }

  function AddWord(v: Vocabulary, cur: nat, x: string): nat {
    if v.hundred(x) then (if cur == 0 then 100 else cur * 100)
    else if v.teen(x) >= 0 then cur + v.teen(x)
    else if v.tens(x) >= 0 then cur + v.tens(x)
    else if v.unit(x) >= 0 then cur + v.unit(x)
    else cur
  }

  function Cardinal(v: Vocabulary, run: seq<string>): nat {
    if run == [] then 0 else AddWord(v, Cardinal(v, run[..|run|-1]), run[|run|-1])
  }

  function DigitsOf(v: Vocabulary, x: string): (s: string)
    ensures AllDigits(s)
  {
    if IsDigitGroup(x) then x else if 0 <= v.unit(x) < 10 then [DigitChar(v.unit(x))] else ""
  }

  function Spelled(v: Vocabulary, run: seq<string>): (s: string)
    ensures AllDigits(s)
  {
    if run == [] then "" else Spelled(v, run[..|run|-1]) + DigitsOf(v, run[|run|-1])
  }

  /** The digits of a run, leading zeros kept unless it is a cardinal. */
  function RunDigits(v: Vocabulary, run: seq<string>): (s: string)
    ensures AllDigits(s)
  {
    if IsCardinal(v, run) then Numeral(Cardinal(v, run)) else Spelled(v, run)
  }

  function RunValue(v: Vocabulary, run: seq<string>): nat {
    if IsCardinal(v, run) then Cardinal(v, run) else NumberOf(Spelled(v, run))
  }

  const INT_MAX: nat := 0x7fff_ffff

  function NormAll(run: seq<string>): seq<string> {
    if run == [] then [] else NormAll(run[..|run|-1]) + [Norm(run[|run|-1])]
  }

  /** Pilots drop the leading 1 of the band. */
  function Megahertz(v: Vocabulary, whole: seq<string>): nat {
    var n := RunValue(v, NormAll(whole));
    if n < 100 then n + 100 else n
  }

  /** `resize(3, '0')` on a string that is shorter than three. */
  function Padded(s: string): (r: string)
    ensures |r| >= 3 && s <= r
    ensures AllDigits(s) ==> AllDigits(r)
    decreases 3 - |s|
  {
    if |s| >= 3 then s else Padded(s + "0")
  }

  predicate Num(v: Vocabulary, t: string) { IsNumWord(v, Norm(t)) }
  predicate Sep(v: Vocabulary, t: string) { v.sep(Norm(t)) }

  /** Outside this range `std::stoi` throws, or the cardinal overflows. */
  predicate Fits(v: Vocabulary, run: seq<string>) { RunValue(v, NormAll(run)) <= INT_MAX }

  predicate InBand(v: Vocabulary, whole: seq<string>) { 108 <= Megahertz(v, whole) <= 137 }

  function Compact(v: Vocabulary, whole: seq<string>, frac: seq<string>): string {
    Numeral(Megahertz(v, whole)) + "." + Padded(RunDigits(v, NormAll(frac)))
  }

  function Vhf(v: Vocabulary): Lexicon<string> {
    Lexicon(t => Num(v, t), t => Sep(v, t), r => Fits(v, r), r => InBand(v, r), (w, f) => Compact(v, w, f))
  }

  // ── What the word tables have to satisfy ────────────────────────────────────

  function DigitWord(d: nat): string
    requires d < 10
  {
    match d
    case 0 => "zero" case 1 => "one" case 2 => "two" case 3 => "three" case 4 => "four"
    case 5 => "five" case 6 => "six" case 7 => "seven" case 8 => "eight" case _ => "nine"
  }

  /** Separators are no numbers, no word starts with a digit, and the ten digits have their words. */
  ghost predicate Sensible(v: Vocabulary) {
    && (forall w :: v.sep(w) ==> !IsNumWord(v, w))
    && (forall w :: v.unit(w) >= 0 || IsGroupWord(v, w) || v.sep(w) ==> w != "" && !IsDigit(w[0]))
    && (forall w :: v.unit(w) >= 0 ==> !IsGroupWord(v, w))
    && (forall d: nat :: d < 10 ==> v.unit(DigitWord(d)) == d)
    && v.sep("decimal")
  }

  // ── The lexicon is lawful ───────────────────────────────────────────────────

  lemma NormCharOfDigit(c: char)
    requires IsDigit(c)
    ensures NormChar(c) == [c]
  {}

  lemma {:induction false} NormOfDigits(s: string)
    requires AllDigits(s)
    ensures Norm(s) == s
    decreases |s|
  {
    if s != "" {
      NormCharOfDigit(s[0]);
      NormOfDigits(s[1..]);
    }
  }

  lemma {:induction false} NormConcat(a: string, b: string)
    ensures Norm(a + b) == Norm(a) + Norm(b)
    decreases |a|
  {
    if a == "" {
      assert a + b == b;
    } else {
      assert (a + b)[1..] == a[1..] + b;
      NormConcat(a[1..], b);
    }
  }

  lemma NormOfDot()
    ensures Norm(".") == ""
  {
    assert NormChar('.') == "" && "."[1..] == "";
  }

  lemma NormOfCompact(w: string, f: string)
    requires AllDigits(w) && AllDigits(f)
    ensures Norm(w + "." + f) == w + f
  {
    NormOfDigits(w);
    NormOfDigits(f);
    NormConcat(w + ".", f);
    NormConcat(w, ".");
    NormOfDot();
    assert w + "" == w;
  }

  /** A written frequency is neither a number word nor a separator. */
  lemma DottedIsOpaque(v: Vocabulary, t: string, w: string, f: string)
    requires Sensible(v)
    requires t == w + "." + f && w != "" && AllDigits(w) && |f| >= 3 && AllDigits(f)
    ensures !Num(v, t) && !Sep(v, t)
  {
    NormOfCompact(w, f);
    assert IsDigit((w + f)[0]);
  }

  lemma CompactIsOpaque(v: Vocabulary, whole: seq<string>, frac: seq<string>)
    requires Sensible(v)
    ensures !Num(v, Compact(v, whole, frac)) && !Sep(v, Compact(v, whole, frac))
  {
    DottedIsOpaque(v, Compact(v, whole, frac), Numeral(Megahertz(v, whole)), Padded(RunDigits(v, NormAll(frac))));
  }

  lemma VhfIsLawful(v: Vocabulary)
    requires Sensible(v)
    ensures Lawful(Vhf(v))
  {
    forall w: seq<string>, f: seq<string> {
      CompactIsOpaque(v, w, f);
    }
  }

  /** The token stage on any text: normal form reached, and twice is once. */
  lemma FrequencyStageIsIdempotent(v: Vocabulary, toks: seq<string>)
    requires Sensible(v)
    ensures NormalForm(Vhf(v), Collapse(Vhf(v), [], toks))
    ensures Collapse(Vhf(v), [], Collapse(Vhf(v), [], toks)) == Collapse(Vhf(v), [], toks)
  {
    VhfIsLawful(v);
    CollapseReachesNormalForm(Vhf(v), toks);
    CollapseIsIdempotent(Vhf(v), toks);
  }

  // ── Digits spelled one by one ───────────────────────────────────────────────

  /** The words of a digit string, as the controller says them. */
  function SpellWords(s: string): (ws: seq<string>)
    requires AllDigits(s)
    ensures |ws| == |s|
  {
    if s == "" then [] else SpellWords(s[..|s|-1]) + [DigitWord(DigitValue(s[|s|-1]))]
  }

  predicate LowerLetters(w: string) {
    forall i :: 0 <= i < |w| ==> 'a' <= w[i] <= 'z'
  }

  lemma NormCharOfLower(c: char)
    requires 'a' <= c <= 'z'
    ensures NormChar(c) == [c]
  {}

  lemma {:induction false} NormOfLetters(w: string)
    requires LowerLetters(w)
    ensures Norm(w) == w
    decreases |w|
  {
    if w != "" {
      NormCharOfLower(w[0]);
      NormOfLetters(w[1..]);
    }
  }

  lemma DigitWordLetters(d: nat)
    requires d < 10
    ensures LowerLetters(DigitWord(d)) && 3 <= |DigitWord(d)| <= 5
  {}

  lemma DigitWordFacts(v: Vocabulary, d: nat)
    requires Sensible(v) && d < 10
    ensures var w := DigitWord(d);
            && Norm(w) == w && Num(v, w) && !IsGroupWord(v, w) && !IsDigitGroup(w)
            && DigitsOf(v, w) == [DigitChar(d)]
  {
    DigitWordLetters(d);
    NormOfLetters(DigitWord(d));
  }

  predicate SpelledRun(v: Vocabulary, ws: seq<string>) {
    NormAll(ws) == ws && forall i :: 0 <= i < |ws| ==> Num(v, ws[i]) && !IsGroupWord(v, ws[i])
  }

  lemma SpelledRunSnoc(v: Vocabulary, ws: seq<string>, w: string)
    requires SpelledRun(v, ws) && Norm(w) == w && Num(v, w) && !IsGroupWord(v, w)
    ensures SpelledRun(v, ws + [w])
    ensures Spelled(v, ws + [w]) == Spelled(v, ws) + DigitsOf(v, w)
  {
    assert (ws + [w])[..|ws|] == ws;
  }

  /** A spelled run is a run of number words that reads as its digits. */
  lemma {:induction false} SpelledBack(v: Vocabulary, s: string)
    requires Sensible(v) && AllDigits(s)
    ensures SpelledRun(v, SpellWords(s)) && Spelled(v, SpellWords(s)) == s
    decreases |s|
  {
    if s != "" {
      var init := s[..|s|-1];
      SpelledBack(v, init);
      SpelledBackStep(v, init, s[|s|-1]);
      FrontAndLast(s);
    }
  }

  lemma SpellWordsSnoc(s: string, c: char)
    requires AllDigits(s) && IsDigit(c)
    ensures SpellWords(s + [c]) == SpellWords(s) + [DigitWord(DigitValue(c))]
  {
    assert (s + [c])[..|s|] == s;
  }

  lemma SpelledBackStep(v: Vocabulary, s: string, c: char)
    requires Sensible(v) && AllDigits(s) && IsDigit(c)
    requires SpelledRun(v, SpellWords(s)) && Spelled(v, SpellWords(s)) == s
    ensures SpelledRun(v, SpellWords(s + [c])) && Spelled(v, SpellWords(s + [c])) == s + [c]
  {
    var d := DigitValue(c);
    SpellWordsSnoc(s, c);
    DigitWordFacts(v, d);
    SpelledRunSnoc(v, SpellWords(s), DigitWord(d));
    assert DigitChar(d) == c;
  }

  lemma SpelledReads(v: Vocabulary, s: string)
    requires Sensible(v) && AllDigits(s)
    ensures RunDigits(v, NormAll(SpellWords(s))) == s && RunValue(v, NormAll(SpellWords(s))) == NumberOf(s)
  {
    SpelledBack(v, s);
  }

  lemma {:induction false} NumeralOfNumber(s: string)
    requires AllDigits(s) && s != "" && (|s| > 1 ==> s[0] != '0')
    ensures Numeral(NumberOf(s)) == s
    ensures |s| > 1 ==> NumberOf(s) >= 10
    decreases |s|
  {
    var init, d := s[..|s|-1], DigitValue(s[|s|-1]);
    assert s == init + [s[|s|-1]];
    if init == "" {
      assert NumberOf(init) == 0;
      assert s == [s[0]];
    } else {
      NumeralOfNumber(init);
      assert NumberOf(s) / 10 == NumberOf(init) && NumberOf(s) % 10 == d;
      if |init| == 1 {
        assert init[..0] == "";
        assert NumberOf(init) == DigitValue(init[0]);
      }
    }
  }

  // ── Written frequencies ─────────────────────────────────────────────────────

  /** "ddd.ddd" with 108 to 137 before the dot. */
  predicate IsVhf(t: string) {
    && |t| == 7 && AllDigits(t[..3]) && t[3] == '.' && AllDigits(t[4..])
    && 108 <= NumberOf(t[..3]) <= 137
  }

  /** No letter, digit, hyphen or space. */
  predicate Punctuation(s: string) {
    forall i :: 0 <= i < |s| ==> !IsAlnum(s[i]) && s[i] != '-' && !IsSpace(s[i])
  }

  /** A frequency, and the punctuation that follows it in its word: "125.130", "125.130," or "125.130." */
  predicate VhfWord(t: string) {
    |t| >= 7 && IsVhf(t[..7]) && Punctuation(t[7..])
  }

  /** The words, with punctuation after the last one. */
  function Marked(ws: seq<string>, p: string): seq<string>
    requires ws != []
  {
    ws[..|ws|-1] + [ws[|ws|-1] + p]
  }

  /** A frequency without its punctuation; any other word as it is. */
  function Bare(t: string): string {
    if VhfWord(t) then t[..7] else t
  }

  function SayVhf(t: string): Option<Piece<string>> {
    if VhfWord(t) then Some(Frequency(SpellWords(t[..3]), "decimal", Marked(SpellWords(t[4..7]), t[7..]))) else None
  }

  lemma {:induction false} NormOfPunctuation(p: string)
    requires Punctuation(p)
    ensures Norm(p) == ""
    decreases |p|
  {
    if p != "" {
      NormOfPunctuation(p[1..]);
    }
  }

  lemma NormOfMarked(w: string, p: string)
    requires Punctuation(p)
    ensures Norm(w + p) == Norm(w)
  {
    NormConcat(w, p);
    NormOfPunctuation(p);
    assert Norm(w) + "" == Norm(w);
  }

  /** Punctuation makes no difference to how a run reads. */
  lemma MarkedReads(ws: seq<string>, p: string)
    requires ws != [] && Punctuation(p)
    ensures NormAll(Marked(ws, p)) == NormAll(ws)
  {
    NormOfMarked(ws[|ws|-1], p);
    assert Marked(ws, p)[..|ws|-1] == ws[..|ws|-1];
  }

  lemma MarkedRun(v: Vocabulary, ws: seq<string>, p: string)
    requires SpelledRun(v, ws) && ws != [] && Punctuation(p)
    ensures forall i :: 0 <= i < |ws| ==> Num(v, Marked(ws, p)[i])
  {
    NormOfMarked(ws[|ws|-1], p);
  }

  lemma VhfParts(t: string)
    requires VhfWord(t)
    ensures t[..7][..3] == t[..3] && t[..7][4..] == t[4..7] && t[..7] == t[..3] + "." + t[4..7] && t == t[..7] + t[7..]
  {
    DotInside(t[..7], 3);
  }

  /** The spoken form of a frequency is read back as that frequency. */
  lemma SpelledFrequencyCompacts(v: Vocabulary, w: string, f: string)
    requires Sensible(v) && |w| == |f| == 3 && AllDigits(w) && AllDigits(f) && 108 <= NumberOf(w) <= 137
    ensures InBand(v, SpellWords(w)) && Compact(v, SpellWords(w), SpellWords(f)) == w + "." + f
  {
    SpelledReads(v, w);
    SpelledReads(v, f);
    ThreeDigitValue(w);
    NumeralOfNumber(w);
  }

  /** The value the source computes as `(d-'0')*100 + (d-'0')*10 + (d-'0')`. */
  lemma ThreeDigitValue(t: string)
    requires |t| == 3 && AllDigits(t)
    ensures NumberOf(t) == DigitValue(t[0]) * 100 + DigitValue(t[1]) * 10 + DigitValue(t[2])
  {
    var a, b := t[..2], t[..1];
    assert a[..1] == b && b[..0] == "";
    assert NumberOf(b) == DigitValue(t[0]);
    assert NumberOf(a) == 10 * NumberOf(b) + DigitValue(t[1]);
  }

  lemma DecimalSeparates(v: Vocabulary)
    requires Sensible(v)
    ensures Sep(v, "decimal")
  {
    assert LowerLetters("decimal");
    NormOfLetters("decimal");
  }

  lemma VhfGenuine(v: Vocabulary, t: string, p: Piece<string>)
    requires Sensible(v) && SayVhf(t) == Some(p)
    ensures Genuine(Vhf(v), p)
  {
    VhfParts(t);
    SpelledFrequencyCompacts(v, t[..3], t[4..7]);
    SpelledBack(v, t[..3]);
    SpelledBack(v, t[4..7]);
    MarkedRun(v, SpellWords(t[4..7]), t[7..]);
    DecimalSeparates(v);
    assert |p.whole| == 3 && |p.frac| == 3;
  }

  lemma VhfWritten(v: Vocabulary, t: string, p: Piece<string>)
    requires Sensible(v) && SayVhf(t) == Some(p)
    ensures Written(Vhf(v), p) == t[..7]
    ensures !Num(v, t) && !Sep(v, t)
  {
    VhfParts(t);
    SpelledFrequencyCompacts(v, t[..3], t[4..7]);
    MarkedReads(SpellWords(t[4..7]), t[7..]);
    DottedIsOpaque(v, t[..7], t[..3], t[4..7]);
    NormOfMarked(t[..7], t[7..]);
  }

  lemma DotInside(t: string, i: nat)
    requires i < |t| && t[i] == '.'
    ensures t == t[..i] + "." + t[i+1..]
  {}

  /** What is spoken for a frequency reads back as that frequency, with the punctuation gone. */
  lemma VhfSpeechIsFaithful(v: Vocabulary)
    requires Sensible(v)
    ensures Faithful(Vhf(v), SayVhf)
    ensures forall t: string :: VhfWord(t) ==> Written(Vhf(v), SayVhf(t).value) == Bare(t) && !Num(v, t) && !Sep(v, t)
  {
    forall t: string | VhfWord(t)
      ensures Genuine(Vhf(v), SayVhf(t).value) && Written(Vhf(v), SayVhf(t).value) == t[..7]
      ensures !Num(v, t) && !Sep(v, t)
    {
      VhfGenuine(v, t, SayVhf(t).value);
      VhfWritten(v, t, SayVhf(t).value);
    }
  }

  // ── The words of the source ─────────────────────────────────────────────────

  function Unit(w: string): int {
    match w
    case "zero" => 0 case "one" => 1 case "two" => 2 case "three" => 3 case "four" => 4
    case "five" => 5 case "six" => 6 case "seven" => 7 case "eight" => 8
    case "nine" => 9 case "niner" => 9
    case _ => -1
  }

  function Teen(w: string): int {
    match w
    case "ten" => 10 case "eleven" => 11 case "twelve" => 12 case "thirteen" => 13
    case "fourteen" => 14 case "fifteen" => 15 case "sixteen" => 16 case "seventeen" => 17
    case "eighteen" => 18 case "nineteen" => 19
    case _ => -1
  }

  function Tens(w: string): int {
    match w
    case "twenty" => 20 case "thirty" => 30 case "forty" => 40 case "fifty" => 50
    case "sixty" => 60 case "seventy" => 70 case "eighty" => 80 case "ninety" => 90
    case _ => -1
  }

  function English(): Vocabulary {
    Vocabulary(Unit, Teen, Tens, w => w == "hundred", w => w == "decimal" || w == "point" || w == "period")
  }

  lemma EnglishSeparators(w: string)
    requires w == "decimal" || w == "point" || w == "period"
    ensures Unit(w) < 0 && Teen(w) < 0 && Tens(w) < 0 && w != "hundred" && !IsDigit(w[0])
  {}

  lemma EnglishStart(w: string)
    requires Unit(w) >= 0 || Teen(w) >= 0 || Tens(w) >= 0 || w == "hundred"
    ensures w != "" && !IsDigit(w[0])
  {}

  lemma EnglishUnits(w: string)
    requires Unit(w) >= 0
    ensures Teen(w) < 0 && Tens(w) < 0 && w != "hundred"
  {}

  lemma EnglishDigits(d: nat)
    requires d < 10
    ensures Unit(DigitWord(d)) == d
  {}

  /** The tables of the source satisfy the laws. */
  lemma EnglishIsSensible()
    ensures Sensible(English())
  {
    var v := English();
    forall w: string
      ensures v.sep(w) ==> !IsNumWord(v, w)
      ensures v.unit(w) >= 0 || IsGroupWord(v, w) || v.sep(w) ==> w != "" && !IsDigit(w[0])
      ensures v.unit(w) >= 0 ==> !IsGroupWord(v, w)
    {
      if v.sep(w) {
        EnglishSeparators(w);
      }
      if v.unit(w) >= 0 || IsGroupWord(v, w) {
        EnglishStart(w);
      }
      if v.unit(w) >= 0 {
        EnglishUnits(w);
      }
    }
    forall d: nat | d < 10 {
      EnglishDigits(d);
    }
  }
}
