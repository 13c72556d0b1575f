/** The word lists of the verifier satisfy the laws that the read-back theorems need. */
module ReadbackEnglish {
  import opened Options
  import opened Text
  import opened Replace
  import FrequencyWords
  import opened ReadbackTokens
  import opened ReadbackSpeech
  import opened VoiceExpansion

  /** The digit that a word is replaced by; -1 for any other word. "to" is taken for "two". */
  function Phonetic(s: string): int {
    match s
    case "niner" => 9 case "seven" => 7 case "eight" => 8 case "three" => 3
    case "zero" => 0 case "one" => 1 case "two" => 2 case "four" => 4 case "fife" => 5 case "five" => 5
    case "six" => 6 case "nine" => 9 case "to" => 2
    case _ => -1
  }

  predicate Contains(s: string, t: string) {
    exists i :: 0 <= i <= |s| && Occurs(s, t, i)
  }

  predicate StartsWith(s: string, t: string) {
    |s| >= |t| && s[..|t|] == t
  }

  const LOW: seq<(string, nat)> :=
    [("ten", 10), ("eleven", 11), ("twelve", 12), ("thirteen", 13), ("fourteen", 14), ("fifteen", 15),
     ("sixteen", 16), ("seventeen", 17), ("eighteen", 18), ("nineteen", 19), ("twenty", 20), ("thirty", 30),
     ("forty", 40), ("fifty", 50), ("sixty", 60), ("seventy", 70), ("eighty", 80), ("ninety", 90)]

  /** The first entry that starts the word. */
  function LowFrom(s: string, i: nat): Kind
    requires i <= |LOW|
    decreases |LOW| - i
  {
    if i == |LOW| then Kind.Plain
    else if StartsWith(s, LOW[i].0) then Low(LOW[i].1)
    else LowFrom(s, i + 1)
  }

  function SideOf(s: string): Option<char> {
    match s
    case "l" => Some('l') case "left" => Some('l')
    case "r" => Some('r') case "right" => Some('r')
    case "c" => Some('c') case "center" => Some('c') case "centre" => Some('c')
    case _ => None
  }

  function KindOf(s: string): Kind {
    if s == "runway" then RunwayWord
    else if s == "approach" then Approach
    else if EndsIn(s, "flight") then Flight
    else if s == "level" then Level
    else if EndsIn(s, "fl") then Fl
    else if s == "feet" || s == "ft" then Feet
    else if s == "squawk" then SquawkWord
    else if SideOf(s).Some? then Side(SideOf(s).value)
    else if StartsWith(s, "thousand") then Thousand(s == "thousand")
    else if StartsWith(s, "hundred") then Hundred(s == "hundred")
    else if StartsWith(s, "knot") then Knots(true)
    else if Contains(s, "speed") then SpeedWord
    else if Contains(s, "knot") then Knots(false)
    else if s == "and" then And
    else LowFrom(s, 0)
  }

  function EnglishLexis(): Lexis {
    Lexis(KindOf,
          s => if 0 <= Phonetic(s) < 10 then Some(Phonetic(s) as nat) else None,
          s => s == "decimal" || s == "point")
  }

  lemma PhoneticStart(s: string)
    requires Phonetic(s) >= 0
    ensures s != "" && IsLetter(s[0]) && Phonetic(s) < 10
  {}

  lemma PhoneticDigits(d: nat)
    requires d < 10
    ensures Phonetic(FrequencyWords.DigitWord(d)) == d
  {}

  lemma RunwayKeyword()
    ensures Keyword(EnglishLexis(), "runway", RunwayWord)
  {}

  lemma FlightKeyword()
    ensures Keyword(EnglishLexis(), "flight", Flight)
  {
    assert "flight"[0..] == "flight";
  }

  lemma LevelKeyword()
    ensures Keyword(EnglishLexis(), "level", Level)
  {}

  lemma LastNot(s: string, t: string)
    requires s != "" && t != "" && s[|s|-1] != t[|t|-1]
    ensures !EndsIn(s, t)
  {
    EndsInLast(s, t);
  }

  lemma FeetKeyword()
    ensures Keyword(EnglishLexis(), "feet", Feet)
  {
    LastNot("feet", "fl");
  }

  lemma SquawkKeyword()
    ensures Keyword(EnglishLexis(), "squawk", SquawkWord)
  {
    LastNot("squawk", "flight");
    LastNot("squawk", "fl");
  }

  lemma SpeedKeyword()
    ensures Keyword(EnglishLexis(), "speed", SpeedWord)
  {
    LastNot("speed", "fl");
    assert "speed"[..4] != "knot" by { assert "speed"[..4][0] == 's'; }
    assert Occurs("speed", "speed", 0);
  }

  lemma KnotsKeyword()
    ensures Keyword(EnglishLexis(), "knots", Knots(true))
  {
    LastNot("knots", "fl");
    assert "knots"[..4] == "knot";
  }

  lemma LeftKeyword()
    ensures Keyword(EnglishLexis(), "left", Side('l'))
  {
    LastNot("left", "fl");
  }

  lemma RightKeyword()
    ensures Keyword(EnglishLexis(), "right", Side('r'))
  {
    LastNot("right", "fl");
  }

  lemma CenterKeyword()
    ensures Keyword(EnglishLexis(), "center", Side('c'))
  {
    LastNot("center", "flight");
    LastNot("center", "fl");
  }

  lemma SpokenIsSane()
    ensures Sane(EnglishLexis()) && VoiceLaws(EnglishLexis())
  {
    var lx := EnglishLexis();
    forall s | lx.digit(s).Some? || lx.dot(s)
      ensures s != "" && IsLetter(s[0])
    {
      if lx.digit(s).Some? {
        PhoneticStart(s);
      }
    }
    forall d: nat | d < 10
      ensures lx.digit(FrequencyWords.DigitWord(d)) == Some(d)
    {
      PhoneticDigits(d);
    }
    RunwayKeyword();
    FlightKeyword();
    LevelKeyword();
    FeetKeyword();
    SquawkKeyword();
    SpeedKeyword();
    KnotsKeyword();
    LeftKeyword();
    RightKeyword();
    CenterKeyword();
    forall s | s == "fl" || EndsIn(s, "flight")
      ensures lx.kind(s) != Kind.Plain
    {
      PlainIsNoLevel(s);
    }
  }

  lemma PlainIsNoLevel(s: string)
    requires s == "fl" || EndsIn(s, "flight")
    ensures KindOf(s) != Kind.Plain
  {
    if s == "fl" {
      assert s[0..] == s;
    }
  }

  predicate EnglishApart(s: string) {
    FrequencyWords.Unit(s) < 0 && FrequencyWords.Teen(s) < 0 && FrequencyWords.Tens(s) < 0 && s != "hundred"
    && s != "decimal" && s != "point" && s != "period"
  }

  lemma ApartInEnglish(s: string)
    requires EnglishApart(s)
    ensures Apart(FrequencyWords.English(), s)
  {}

  lemma LevelsApart()
    ensures var v := FrequencyWords.English();
            Apart(v, "runway") && Apart(v, "flight") && Apart(v, "level") && Apart(v, "feet")
  {
    ApartInEnglish("runway");
    ApartInEnglish("flight");
    ApartInEnglish("level");
    ApartInEnglish("feet");
  }

  lemma CodesApart()
    ensures var v := FrequencyWords.English(); Apart(v, "squawk") && Apart(v, "speed") && Apart(v, "knots")
  {
    ApartInEnglish("squawk");
    ApartInEnglish("speed");
    ApartInEnglish("knots");
  }

  lemma SidesApart()
    ensures var v := FrequencyWords.English(); Apart(v, "left") && Apart(v, "right") && Apart(v, "center")
  {
    ApartInEnglish("left");
    ApartInEnglish("right");
    ApartInEnglish("center");
  }

  lemma EnglishKeywordsApart()
    ensures KeywordsApart(FrequencyWords.English())
  {
    LevelsApart();
    CodesApart();
    SidesApart();
  }

  /** The tables of the source satisfy the laws. */
  lemma EnglishLaws()
    ensures Laws(FrequencyWords.English(), EnglishLexis()) && VoiceLaws(EnglishLexis())
  {
    FrequencyWords.EnglishIsSensible();
    EnglishKeywordsApart();
    SpokenIsSane();
  }
}
