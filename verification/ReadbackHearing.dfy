/** What the verifier hears of a text of items, and what it says when a text is read back as it was spoken. */
module ReadbackHearing {
  import opened Options
  import opened Text
  import opened AtcTypes
  import opened FrequencySpeech
  import opened FrequencyNormaliser
  import opened ReadbackTokens
  import opened ReadbackItems
  import opened ReadbackVerdict
  import opened ReadbackSpeech
  import FrequencyWords

  // ── Words become tokens ─────────────────────────────────────────────────────

  predicate FreeOfCommas(s: string) {
    forall i :: 0 <= i < |s| ==> s[i] != ','
  }

  lemma {:induction false} KeepsAll(s: string)
    requires FreeOfCommas(s)
    ensures NoCommas(s) == s
    decreases |s|
  {
    if s != "" {
      KeepsAll(s[1..]);
    }
  }

  lemma {:induction false} DigitsStayLow(s: string)
    requires AllDigits(s)
    ensures LowerAll(s) == s
    decreases |s|
  {
    if s != "" {
      DigitsStayLow(s[1..]);
    }
  }

  lemma LexLetters(lx: Lexis, w: string, k: Kind)
    requires w != "" && AllLetters(w) && Keyword(lx, LowerAll(w), k)
    ensures Lex(lx, w) == Word(k)
  {
    var s := LowerAll(w);
    forall i | 0 <= i < |s|
      ensures IsLetter(s[i])
    {
      LowerAllAt(w, i);
    }
    KeepsAll(s);
    assert !IsDigit(s[0]) && !AllDigits(s);
    assert |s| == 7 ==> s[..3][0] == s[0];
    assert |s| >= 2 ==> s[..|s|-1][0] == s[0];
  }

  lemma LexKeyword(lx: Lexis, w: string, k: Kind)
    requires FrequencyWords.LowerLetters(w) && 0 < |w| < 7 && Keyword(lx, w, k)
    ensures Lex(lx, w) == Word(k)
  {
    LowerStays(w);
    LexLetters(lx, w, k);
  }

  lemma LexDigits(lx: Lexis, s: string)
    requires Sane(lx) && s != "" && AllDigits(s)
    ensures Lex(lx, s) == Digits(s)
  {
    DigitsStayLow(s);
    KeepsAll(s);
  }

  lemma LexDigitWord(lx: Lexis, d: nat)
    requires Sane(lx) && d < 10
    ensures Lex(lx, FrequencyWords.DigitWord(d)) == Digits([DigitChar(d)])
  {
    var w := FrequencyWords.DigitWord(d);
    FrequencyWords.DigitWordLetters(d);
    LowerStays(w);
    KeepsAll(w);
  }

  lemma LexSide(lx: Lexis, c: char)
    requires Sane(lx) && c in {'l', 'r', 'c'}
    ensures Lex(lx, SideWord(c)) == Word(Side(c))
  {
    SideIsSpelling(c);
    var s := if c == 'l' then "left" else if c == 'r' then "right" else "center";
    SpellingHasLetters(SideWord(c), s);
    LexLetters(lx, SideWord(c), Side(c));
  }

  lemma {:induction false} LowerConcat(a: string, b: string)
    ensures LowerAll(a + b) == LowerAll(a) + LowerAll(b)
    decreases |a|
  {
    if a == "" {
      assert a + b == b;
    } else {
      assert (a + b)[1..] == a[1..] + b;
      LowerConcat(a[1..], b);
    }
  }

  lemma LexDesignator(lx: Lexis, n: string, c: char)
    requires Sane(lx) && Figures(n, 1, 2) && c in {'l', 'r', 'c'}
    ensures Lex(lx, n + [Upper(c)]) == Designator(n, c)
  {
    var w := n + [Upper(c)];
    LowerConcat(n, [Upper(c)]);
    DigitsStayLow(n);
    assert LowerAll([Upper(c)]) == [c];
    KeepsAll(n + [c]);
    var s := n + [c];
    assert s[..|s|-1] == n && s[0] == n[0];
    assert !IsDigit(s[|s|-1]);
  }

  lemma LexFrequency(lx: Lexis, w: string, f: string)
    requires Sane(lx) && Figures(w, 3, 3) && Figures(f, 3, 3)
    ensures Lex(lx, w + "." + f) == Dotted(w, f)
  {
    var t := w + "." + f;
    LowerConcat(w + ".", f);
    LowerConcat(w, ".");
    DigitsStayLow(w);
    DigitsStayLow(f);
    assert LowerAll(".") == "." by { assert "."[1..] == ""; }
    KeepsAll(t);
    assert t[..3] == w && t[4..] == f && t[0] == w[0] && t[3] == '.';
  }

  lemma {:induction false} LexConcat(lx: Lexis, a: seq<string>, b: seq<string>)
    ensures LexAll(lx, a + b) == LexAll(lx, a) + LexAll(lx, b)
    decreases |a|
  {
    if a == [] {
      assert a + b == b;
    } else {
      assert (a + b)[1..] == a[1..] + b;
      LexConcat(lx, a[1..], b);
    }
  }

  lemma LexOne(lx: Lexis, w: string)
    ensures LexAll(lx, [w]) == [Lex(lx, w)]
  {
    assert [w][1..] == [];
  }

  // ── Spelled digits ──────────────────────────────────────────────────────────

  function Singles(s: string): seq<Token> {
    if s == "" then [] else [Digits([s[0]])] + Singles(s[1..])
  }

  lemma {:induction false} SinglesSnoc(s: string, c: char)
    ensures Singles(s + [c]) == Singles(s) + [Digits([c])]
    decreases |s|
  {
    if s == "" {
      assert [c][1..] == "" && s + [c] == [c];
    } else {
      assert (s + [c])[1..] == s[1..] + [c];
      SinglesSnoc(s[1..], c);
    }
  }

  lemma LexSpelledSnoc(lx: Lexis, ws: seq<string>, c: char)
    requires Sane(lx) && IsDigit(c)
    ensures LexAll(lx, ws + [FrequencyWords.DigitWord(DigitValue(c))]) == LexAll(lx, ws) + [Digits([c])]
  {
    LexDigitWord(lx, DigitValue(c));
    LexOne(lx, FrequencyWords.DigitWord(DigitValue(c)));
    LexConcat(lx, ws, [FrequencyWords.DigitWord(DigitValue(c))]);
    assert DigitChar(DigitValue(c)) == c;
  }

  lemma {:induction false} LexSpelled(lx: Lexis, s: string)
    requires Sane(lx) && AllDigits(s)
    ensures LexAll(lx, FrequencyWords.SpellWords(s)) == Singles(s)
    decreases |s|
  {
    if s != "" {
      var init, c := s[..|s|-1], s[|s|-1];
      LexSpelled(lx, init);
      LexSpelledStep(lx, init, c);
      FrontAndLast(s);
    }
  }

  lemma LexSpelledStep(lx: Lexis, s: string, c: char)
    requires Sane(lx) && AllDigits(s) && IsDigit(c)
    requires LexAll(lx, FrequencyWords.SpellWords(s)) == Singles(s)
    ensures LexAll(lx, FrequencyWords.SpellWords(s + [c])) == Singles(s + [c])
  {
    FrequencyWords.SpellWordsSnoc(s, c);
    LexSpelledSnoc(lx, FrequencyWords.SpellWords(s), c);
    SinglesSnoc(s, c);
  }

  /** A token that takes part in no merge with what comes before it. */
  predicate Apart1(rest: seq<Token>) {
    rest != [] ==> !Single(rest[0])
  }

  lemma TwoSingles(s: string)
    requires |s| >= 2
    ensures Singles(s) == [Digits([s[0]]), Digits([s[1]])] + Singles(s[2..])
  {
    FirstSingle(s);
    FirstSingle(s[1..]);
    assert s[1..][1..] == s[2..] && s[1..][0] == s[1];
    TwoInFront(Digits([s[0]]), Digits([s[1]]), Singles(s[2..]));
  }

  lemma FirstSingle(s: string)
    requires s != ""
    ensures Singles(s) == [Digits([s[0]])] + Singles(s[1..])
  {}

  lemma TwoInFront<T>(a: T, b: T, rest: seq<T>)
    ensures [a] + ([b] + rest) == [a, b] + rest
  {}

  lemma PairsTwo(a: char, b: char, more: seq<Token>)
    ensures Pairs([Digits([a]), Digits([b])] + more) == [Digits([a, b])] + Pairs(more)
  {
    assert ([Digits([a]), Digits([b])] + more)[2..] == more && [a] + [b] == [a, b];
  }

  lemma {:induction false} PairsSingles(s: string, rest: seq<Token>)
    requires s != "" && Apart1(rest)
    ensures Pairs(Singles(s) + rest) == PairedDigits(s) + Pairs(rest)
    decreases |s|
  {
    if |s| == 1 {
      assert Singles(s) == [Digits(s)] by { assert s[1..] == "" && [s[0]] == s; }
      PairsThrough(Digits(s), rest);
    } else {
      var two := [Digits([s[0]]), Digits([s[1]])];
      TwoSingles(s);
      assert (two + Singles(s[2..])) + rest == two + (Singles(s[2..]) + rest);
      PairsTwo(s[0], s[1], Singles(s[2..]) + rest);
      assert [s[0], s[1]] == s[..2];
      if |s| == 2 {
        assert Singles(s[2..]) + rest == rest && s[..2] == s;
      } else {
        PairsSingles(s[2..], rest);
      }
    }
  }

  /** Spelled digits run together into one number exactly when there are no more than two of them. */
  lemma MergedExactlyUpToTwo(s: string)
    requires s != ""
    ensures Pairs(Singles(s)) == PairedDigits(s)
    ensures Pairs(Singles(s)) == [Digits(s)] <==> |s| <= 2
  {
    PairsSingles(s, []);
    assert Singles(s) + [] == Singles(s) && PairedDigits(s) + [] == PairedDigits(s) && Pairs([]) == [];
    if |s| > 2 {
      assert PairedDigits(s)[0] == Digits(s[..2]);
    }
  }

  /** "1 6 6 1" becomes "16 61". */
  lemma FourDigitsStayTwo()
    ensures Pairs([Digits("1"), Digits("6"), Digits("6"), Digits("1")]) == [Digits("16"), Digits("61")]
  {
    MergedExactlyUpToTwo("1661");
    assert "1661"[..2] == "16" && "1661"[2..] == "61";
    TwoSingles("1661");
    TwoSingles("61");
    assert Singles("") == [];
    assert Singles("1661") == [Digits("1"), Digits("6"), Digits("6"), Digits("1")];
  }

  function NumberRaw(s: string, spelled: bool): seq<Token> {
    if spelled then Singles(s) else [Digits(s)]
  }

  lemma LexNumber(lx: Lexis, s: string, spelled: bool)
    requires Sane(lx) && AllDigits(s) && s != ""
    ensures LexAll(lx, NumberWords(s, spelled)) == NumberRaw(s, spelled)
  {
    if spelled {
      LexSpelled(lx, s);
    } else {
      LexOne(lx, s);
      LexDigits(lx, s);
    }
  }

  lemma PairsNumber(s: string, spelled: bool, rest: seq<Token>)
    requires s != "" && Apart1(rest)
    ensures Pairs(NumberRaw(s, spelled) + rest) == (if spelled then PairedDigits(s) else [Digits(s)]) + Pairs(rest)
  {
    if spelled {
      PairsSingles(s, rest);
    } else {
      PairsThrough(Digits(s), rest);
    }
  }

  // ── Items become tokens ─────────────────────────────────────────────────────

  function Hear(lx: Lexis, ws: seq<string>): seq<Token> {
    Pairs(LexAll(lx, ws))
  }

  /** `ws` says the digits of `s`. */
  predicate SaysNumber(lx: Lexis, ws: seq<string>, s: string, spelled: bool) {
    s != "" && LexAll(lx, ws) == NumberRaw(s, spelled)
  }

  predicate SaysWord(lx: Lexis, w: string, k: Kind) {
    Lex(lx, w) == Word(k)
  }

  predicate NoDigitNext(lx: Lexis, ws: seq<string>) {
    ws != [] ==> !Single(Lex(lx, ws[0]))
  }

  function NumberTokens(s: string, spelled: bool): seq<Token> {
    if spelled then PairedDigits(s) else [Digits(s)]
  }

  lemma HearNumber(lx: Lexis, number: seq<string>, s: string, spelled: bool, ws: seq<string>)
    requires SaysNumber(lx, number, s, spelled) && NoDigitNext(lx, ws)
    ensures Hear(lx, number + ws) == NumberTokens(s, spelled) + Hear(lx, ws)
  {
    LexConcat(lx, number, ws);
    PairsNumber(s, spelled, LexAll(lx, ws));
  }

  lemma HearOther(lx: Lexis, w: string, ws: seq<string>)
    requires !Lex(lx, w).Digits?
    ensures Hear(lx, [w] + ws) == [Lex(lx, w)] + Hear(lx, ws) && NoDigitNext(lx, [w] + ws)
  {
    LexOne(lx, w);
    LexConcat(lx, [w], ws);
    PairsThrough(Lex(lx, w), LexAll(lx, ws));
  }

  lemma WordNumber(lx: Lexis, a: string, k: Kind, number: seq<string>, s: string, spelled: bool, ws: seq<string>)
    requires SaysWord(lx, a, k) && SaysNumber(lx, number, s, spelled) && NoDigitNext(lx, ws)
    ensures Hear(lx, ([a] + number) + ws) == ([Word(k)] + NumberTokens(s, spelled)) + Hear(lx, ws)
  {
    HearNumber(lx, number, s, spelled, ws);
    HearOther(lx, a, number + ws);
    Regroup2(a, number, ws);
    Regroup2(Word(k), NumberTokens(s, spelled), Hear(lx, ws));
  }

  lemma WordWordNumber(lx: Lexis, a: string, k: Kind, b: string, l: Kind,
                       number: seq<string>, s: string, spelled: bool, ws: seq<string>)
    requires SaysWord(lx, a, k) && SaysWord(lx, b, l) && SaysNumber(lx, number, s, spelled) && NoDigitNext(lx, ws)
    ensures Hear(lx, ([a, b] + number) + ws) == ([Word(k), Word(l)] + NumberTokens(s, spelled)) + Hear(lx, ws)
  {
    HearNumber(lx, number, s, spelled, ws);
    HearOther(lx, b, number + ws);
    HearOther(lx, a, [b] + (number + ws));
    Cons2(a, b, number, ws);
    Cons2(Word(k), Word(l), NumberTokens(s, spelled), Hear(lx, ws));
  }

  lemma NumberWord(lx: Lexis, number: seq<string>, s: string, spelled: bool, a: string, k: Kind, ws: seq<string>)
    requires SaysNumber(lx, number, s, spelled) && SaysWord(lx, a, k)
    ensures Hear(lx, (number + [a]) + ws) == (NumberTokens(s, spelled) + [Word(k)]) + Hear(lx, ws)
  {
    HearOther(lx, a, ws);
    HearNumber(lx, number, s, spelled, [a] + ws);
    Regroup4(number, [a], ws);
    Regroup4(NumberTokens(s, spelled), [Word(k)], Hear(lx, ws));
  }

  lemma WordNumberWord(lx: Lexis, a: string, k: Kind, number: seq<string>, s: string, spelled: bool,
                       b: string, l: Kind, ws: seq<string>)
    requires SaysWord(lx, a, k) && SaysNumber(lx, number, s, spelled) && SaysWord(lx, b, l)
    ensures Hear(lx, (([a] + number) + [b]) + ws) == (([Word(k)] + NumberTokens(s, spelled)) + [Word(l)]) + Hear(lx, ws)
  {
    NumberWord(lx, number, s, spelled, b, l, ws);
    HearOther(lx, a, (number + [b]) + ws);
    Regroup3(a, number, b, ws);
    Regroup4(number, [b], ws);
    Regroup3(Word(k), NumberTokens(s, spelled), Word(l), Hear(lx, ws));
    Regroup4(NumberTokens(s, spelled), [Word(l)], Hear(lx, ws));
  }

  lemma Two<T>(a: T, b: T)
    ensures [a, b] == [a] + [b]
  {}

  lemma Three<T>(a: T, b: T, c: T)
    ensures [a, b, c] == ([a] + [b]) + [c] == [a] + [b, c]
  {}

  lemma Cons2<T>(a: T, b: T, f: seq<T>, r: seq<T>)
    ensures ([a, b] + f) + r == [a] + ([b] + (f + r))
  {}

  lemma Regroup2<T>(a: T, b: seq<T>, c: seq<T>)
    ensures ([a] + b) + c == [a] + (b + c)
  {}

  lemma Regroup3<T>(a: T, b: seq<T>, d: T, c: seq<T>)
    ensures (([a] + b) + [d]) + c == [a] + (b + ([d] + c))
  {}

  lemma Regroup4<T>(a: seq<T>, b: seq<T>, c: seq<T>)
    ensures (a + b) + c == a + (b + c)
  {}

  lemma NumberSaid(lx: Lexis, s: string, spelled: bool)
    requires Sane(lx) && AllDigits(s) && s != ""
    ensures SaysNumber(lx, NumberWords(s, spelled), s, spelled)
  {
    LexNumber(lx, s, spelled);
  }

  lemma RunwaySaid(lx: Lexis)
    requires Keyword(lx, "runway", RunwayWord)
    ensures SaysWord(lx, "runway", RunwayWord)
  {
    LexKeyword(lx, "runway", RunwayWord);
  }

  lemma FlightSaid(lx: Lexis)
    requires Keyword(lx, "flight", Flight)
    ensures SaysWord(lx, "flight", Flight)
  {
    LexKeyword(lx, "flight", Flight);
  }

  lemma LevelSaid(lx: Lexis)
    requires Keyword(lx, "level", Level)
    ensures SaysWord(lx, "level", Level)
  {
    LexKeyword(lx, "level", Level);
  }

  lemma FeetSaid(lx: Lexis)
    requires Keyword(lx, "feet", Feet)
    ensures SaysWord(lx, "feet", Feet)
  {
    LexKeyword(lx, "feet", Feet);
  }

  lemma SquawkSaid(lx: Lexis)
    requires Keyword(lx, "squawk", SquawkWord)
    ensures SaysWord(lx, "squawk", SquawkWord)
  {
    LexKeyword(lx, "squawk", SquawkWord);
  }

  lemma SpeedSaid(lx: Lexis)
    requires Keyword(lx, "speed", SpeedWord)
    ensures SaysWord(lx, "speed", SpeedWord)
  {
    LexKeyword(lx, "speed", SpeedWord);
  }

  lemma KnotsSaid(lx: Lexis)
    requires Keyword(lx, "knots", Knots(true))
    ensures SaysWord(lx, "knots", Knots(true))
  {
    LexKeyword(lx, "knots", Knots(true));
  }

  lemma HearRunway(lx: Lexis, n: string, side: Option<char>, form: Form, ws: seq<string>)
    requires Sane(lx) && ItemOk(RunwayItem(n, side)) && NoDigitNext(lx, ws)
    ensures Hear(lx, WordsOf(RunwayItem(n, side), form) + ws) == HeardItem(RunwayItem(n, side), form) + Hear(lx, ws)
  {
    RunwaySaid(lx);
    var spelled := form == SpelledOut;
    NumberSaid(lx, n, spelled);
    RunwayShape(n, spelled);
    match side
    case None => WordNumber(lx, "runway", RunwayWord, NumberWords(n, spelled), n, spelled, ws);
    case Some(c) =>
      if form == Written {
        HearDesignator(lx, n, c, ws);
      } else {
        LexSide(lx, c);
        WordNumberWord(lx, "runway", RunwayWord, NumberWords(n, spelled), n, spelled, SideWord(c), Side(c), ws);
        Three(Word(RunwayWord), Digits(n), Word(Side(c)));
      }
  }

  lemma RunwayShape(n: string, spelled: bool)
    requires 1 <= |n| <= 2
    ensures NumberTokens(n, spelled) == [Digits(n)]
  {}

  lemma HearDesignator(lx: Lexis, n: string, c: char, ws: seq<string>)
    requires Sane(lx) && ItemOk(RunwayItem(n, Some(c)))
    ensures Hear(lx, (["runway"] + [n + [Upper(c)]]) + ws) == ([Word(RunwayWord)] + [Designator(n, c)]) + Hear(lx, ws)
  {
    var w := n + [Upper(c)];
    RunwaySaid(lx);
    LexDesignator(lx, n, c);
    HearOther(lx, w, ws);
    HearOther(lx, "runway", [w] + ws);
    Regroup2("runway", [w], ws);
    Regroup2(Word(RunwayWord), [Designator(n, c)], Hear(lx, ws));
  }

  lemma HearLevel(lx: Lexis, s: string, form: Form, ws: seq<string>)
    requires Sane(lx) && ItemOk(LevelItem(s)) && NoDigitNext(lx, ws)
    ensures Hear(lx, WordsOf(LevelItem(s), form) + ws) == HeardItem(LevelItem(s), form) + Hear(lx, ws)
  {
    FlightSaid(lx);
    LevelSaid(lx);
    NumberSaid(lx, s, form != Written);
    WordWordNumber(lx, "flight", Flight, "level", Level, NumberWords(s, form != Written), s, form != Written, ws);
  }

  lemma HearFeet(lx: Lexis, s: string, form: Form, ws: seq<string>)
    requires Sane(lx) && ItemOk(FeetItem(s))
    ensures Hear(lx, WordsOf(FeetItem(s), form) + ws) == HeardItem(FeetItem(s), form) + Hear(lx, ws)
  {
    FeetSaid(lx);
    NumberSaid(lx, s, false);
    NumberWord(lx, [s], s, false, "feet", Feet, ws);
    Two(s, "feet");
    Two(Digits(s), Word(Feet));
  }

  lemma HearSquawk(lx: Lexis, s: string, form: Form, ws: seq<string>)
    requires Sane(lx) && ItemOk(SquawkItem(s)) && NoDigitNext(lx, ws)
    ensures Hear(lx, WordsOf(SquawkItem(s), form) + ws) == HeardItem(SquawkItem(s), form) + Hear(lx, ws)
  {
    SquawkSaid(lx);
    NumberSaid(lx, s, form != Written);
    WordNumber(lx, "squawk", SquawkWord, NumberWords(s, form != Written), s, form != Written, ws);
  }

  lemma HearSpeed(lx: Lexis, s: string, form: Form, ws: seq<string>)
    requires Sane(lx) && ItemOk(SpeedItem(s))
    ensures Hear(lx, WordsOf(SpeedItem(s), form) + ws) == HeardItem(SpeedItem(s), form) + Hear(lx, ws)
  {
    SpeedSaid(lx);
    KnotsSaid(lx);
    NumberSaid(lx, s, false);
    WordNumberWord(lx, "speed", SpeedWord, [s], s, false, "knots", Knots(true), ws);
    Three("speed", s, "knots");
    Three(Word(SpeedWord), Digits(s), Word(Knots(true)));
  }

  lemma HearNeutral(lx: Lexis, w: string, ws: seq<string>)
    requires w != "" && AllLetters(w) && Keyword(lx, LowerAll(w), Kind.Plain)
    ensures Hear(lx, [w] + ws) == [Word(Kind.Plain)] + Hear(lx, ws) && NoDigitNext(lx, [w] + ws)
  {
    LexLetters(lx, w, Kind.Plain);
    HearOther(lx, w, ws);
  }

  lemma HearMention(lx: Lexis, ws: seq<string>)
    requires Keyword(lx, "speed", SpeedWord)
    ensures Hear(lx, ["speed"] + ws) == [Word(SpeedWord)] + Hear(lx, ws) && NoDigitNext(lx, ["speed"] + ws)
  {
    LexKeyword(lx, "speed", SpeedWord);
    HearOther(lx, "speed", ws);
  }

  lemma HearFrequency(lx: Lexis, w: string, f: string, ws: seq<string>)
    requires Sane(lx) && Figures(w, 3, 3) && Figures(f, 3, 3)
    ensures Hear(lx, [w + "." + f] + ws) == [Dotted(w, f)] + Hear(lx, ws)
  {
    LexFrequency(lx, w, f);
    HearOther(lx, w + "." + f, ws);
  }

  lemma HearItem(v: Vocabulary, lx: Lexis, it: Item, form: Form, ws: seq<string>)
    requires Laws(v, lx) && TextItem(v, lx, it) && (!Wordy(it) ==> NoDigitNext(lx, ws))
    ensures Hear(lx, WordsOf(it, form) + ws) == HeardItem(it, form) + Hear(lx, ws)
    ensures Wordy(it) ==> NoDigitNext(lx, WordsOf(it, form) + ws)
  {
    match it
    case Neutral(w) => HearNeutral(lx, w, ws);
    case SpeedMention => HearMention(lx, ws);
    case RunwayItem(n, side) => HearRunway(lx, n, side, form, ws);
    case LevelItem(s) => HearLevel(lx, s, form, ws);
    case FeetItem(s) => HearFeet(lx, s, form, ws);
    case FrequencyItem(w, f) => HearFrequency(lx, w, f, ws);
    case SquawkItem(s) => HearSquawk(lx, s, form, ws);
    case SpeedItem(s) => HearSpeed(lx, s, form, ws);
  }

  lemma {:induction false} HearItems(v: Vocabulary, lx: Lexis, items: seq<Item>, form: Form)
    requires Laws(v, lx) && TextItems(v, lx, items) && Spaced(items)
    ensures Hear(lx, Words(items, form)) == Heard(items, form)
    decreases |items|
  {
    if items != [] {
      HearItems(v, lx, items[1..], form);
      if |items| > 1 && Wordy(items[1]) {
        assert items[1..][1..] == items[2..];
        assert Words(items[1..], form) == WordsOf(items[1], form) + Words(items[2..], form);
        HearItem(v, lx, items[1], form, Words(items[2..], form));
      }
      HearItem(v, lx, items[0], form, Words(items[1..], form));
    }
  }

  // ── The round trip ──────────────────────────────────────────────────────────

  /** A text of items is heard as its items, in whatever form it is said. */
  lemma UtteranceHeard(v: Vocabulary, lx: Lexis, items: seq<Item>, form: Form)
    requires Laws(v, lx) && TextItems(v, lx, items) && Spaced(items)
    ensures VerifierTokens(v, lx, Utterance(items, form)) == Heard(items, form)
  {
    NormalisedUtterance(v, lx, items, form);
    SplitJoin(Words(items, form));
    HearItems(v, lx, items, form);
  }

  /** `check`: nothing is compared when one of the texts is empty. */
  function Check(v: Vocabulary, lx: Lexis, cl: string, rb: string): seq<Fault> {
    if cl == "" || rb == "" then [] else Faults(VerifierTokens(v, lx, cl), VerifierTokens(v, lx, rb))
  }

  function MatchedFields(v: Vocabulary, lx: Lexis, cl: string, rb: string): set<Field> {
    if cl == "" || rb == "" then {} else Matched(VerifierTokens(v, lx, cl), VerifierTokens(v, lx, rb))
  }

  function FieldsPresent(v: Vocabulary, lx: Lexis, cl: string): set<Field> {
    if cl == "" then {} else Present(VerifierTokens(v, lx, cl))
  }

  lemma NothingSaid(v: Vocabulary, lx: Lexis, items: seq<Item>, form: Form)
    requires Laws(v, lx) && TextItems(v, lx, items) && Spaced(items) && Utterance(items, form) == ""
    ensures items == []
  {
    NormalisedUtterance(v, lx, items, form);
    assert PrePass("") == "" && Normalised(v, "") == "";
    JoinEmpty(Words(items, form));
  }

  lemma JoinEmpty(ws: seq<string>)
    requires AllWords(ws) && Join(ws) == ""
    ensures ws == []
  {}

  /** Reading back exactly what the voice said: no fault, and every field of the clearance is matched exactly when
      no word "speed" takes the digits of a squawk code or of a three-digit level for a speed. */
  lemma SpokenClearanceReadBack(v: Vocabulary, lx: Lexis, items: seq<Item>, form: Form)
    requires Laws(v, lx) && TextItems(v, lx, items) && Spaced(items)
    ensures var cl, rb := Utterance(items, Written), Utterance(items, form);
            && Check(v, lx, cl, rb) == []
            && (MatchedFields(v, lx, cl, rb) == FieldsPresent(v, lx, cl) <==> form == Written || SpeedReadsAlike(items))
  {
    UtteranceHeard(v, lx, items, Written);
    UtteranceHeard(v, lx, items, form);
    FaithfulReadbackPasses(items, form);
    if Utterance(items, form) == "" {
      NothingSaid(v, lx, items, form);
    }
    if Utterance(items, Written) == "" {
      NothingSaid(v, lx, items, Written);
    }
  }

  /** The read-back has the field wrong, as far as the verifier goes. */
  predicate Wrong(cl: seq<Item>, rb: seq<Item>, f: Field, form: Form) {
    match f
    case Runway => ClearedRunway(cl).Some? && ClearedRunway(rb) != ClearedRunway(cl)
    case FlightLevel => WrongLevel(cl, rb)
    case Altitude => WrongFeet(cl, rb)
    case Frequency => FirstFrequency(cl).Some? && FirstFrequency(rb) != FirstFrequency(cl)
    case Squawk => FirstSquawk(cl).Some? && FirstSquawk(rb) != FirstSquawk(cl)
    case Speed => WrongSpeed(cl, rb, form)
  }

  lemma WrongIsFault(cl: seq<Item>, rb: seq<Item>, f: Field, form: Form)
    requires ItemsOk(cl) && Spaced(cl) && ItemsOk(rb) && Spaced(rb)
    ensures Reported(Faults(Heard(cl, Written), Heard(rb, form)), f) <==> Wrong(cl, rb, f, form)
  {
    ReportedParts(Heard(cl, Written), Heard(rb, form), f);
    WrongRunwayIsReported(cl, rb, form);
    WrongCodeIsReported(cl, rb, form);
    WrongNumberIsReportedUnlessItsDigitsAreSaid(cl, rb, form);
  }

  lemma NothingIsWrongWithNothing(rb: seq<Item>, f: Field, form: Form)
    ensures !Wrong([], rb, f, form)
  {}

  /** Every field: reported exactly when it is wrong, in any wording, unless nothing is said at all. */
  lemma WrongItemIsReported(v: Vocabulary, lx: Lexis, cl: seq<Item>, rb: seq<Item>, form: Form)
    requires Laws(v, lx) && TextItems(v, lx, cl) && Spaced(cl) && TextItems(v, lx, rb) && Spaced(rb)
    ensures var faults := Check(v, lx, Utterance(cl, Written), Utterance(rb, form));
            forall f :: Reported(faults, f) <==> rb != [] && Wrong(cl, rb, f, form)
  {
    var a, b := Utterance(cl, Written), Utterance(rb, form);
    UtteranceHeard(v, lx, cl, Written);
    UtteranceHeard(v, lx, rb, form);
    if a == "" {
      NothingSaid(v, lx, cl, Written);
    }
    if b == "" {
      NothingSaid(v, lx, rb, form);
    }
    if rb == [] {
      assert Words(rb, form) == [] && b == "";
    }
    forall f
      ensures Reported(Check(v, lx, a, b), f) <==> rb != [] && Wrong(cl, rb, f, form)
    {
      WrongIsFault(cl, rb, f, form);
      NothingIsWrongWithNothing(rb, f, form);
    }
  }

  predicate Reported(faults: seq<Fault>, f: Field) {
    exists i :: 0 <= i < |faults| && faults[i].field == f
  }

  lemma ReportedConcat(a: seq<Fault>, b: seq<Fault>, f: Field)
    ensures Reported(a + b, f) <==> Reported(a, f) || Reported(b, f)
  {
    if Reported(a, f) {
      var i :| 0 <= i < |a| && a[i].field == f;
      assert (a + b)[i].field == f;
    }
    if Reported(b, f) {
      var i :| 0 <= i < |b| && b[i].field == f;
      assert (a + b)[|a| + i].field == f;
    }
  }

  predicate About(faults: seq<Fault>, f: Field) {
    forall i :: 0 <= i < |faults| ==> faults[i].field == f
  }

  lemma ReportedAbout(faults: seq<Fault>, own: Field, f: Field)
    requires About(faults, own)
    ensures Reported(faults, f) <==> f == own && faults != []
  {
    if faults != [] {
      assert faults[0].field == own;
    }
  }

  /** Each field is reported by its own comparison and by no other. */
  lemma ReportedParts(cl: seq<Token>, rb: seq<Token>, f: Field)
    ensures Reported(Faults(cl, rb), f) <==>
            match f
            case Runway => RunwayFaults(cl, rb) != []
            case FlightLevel => LevelFaults(cl, rb) != []
            case Altitude => FeetFaults(cl, rb) != []
            case Frequency => FrequencyFaults(cl, rb) != []
            case Squawk => SquawkFaults(cl, rb) != []
            case Speed => SpeedFaults(cl, rb) != []
  {
    ReportedAbout(RunwayFaults(cl, rb), Runway, f);
    ReportedAbout(LevelFaults(cl, rb), FlightLevel, f);
    ReportedAbout(FeetFaults(cl, rb), Altitude, f);
    ReportedAbout(FrequencyFaults(cl, rb), Frequency, f);
    ReportedAbout(SquawkFaults(cl, rb), Squawk, f);
    ReportedAbout(SpeedFaults(cl, rb), Speed, f);
    Reported6(RunwayFaults(cl, rb), LevelFaults(cl, rb), FeetFaults(cl, rb),
              FrequencyFaults(cl, rb), SquawkFaults(cl, rb), SpeedFaults(cl, rb), f);
  }

  lemma Reported6(a: seq<Fault>, b: seq<Fault>, c: seq<Fault>, d: seq<Fault>, e: seq<Fault>, g: seq<Fault>, f: Field)
    ensures Reported(a + b + c + d + e + g, f)
            <==> Reported(a, f) || Reported(b, f) || Reported(c, f) || Reported(d, f) || Reported(e, f) || Reported(g, f)
  {
    ReportedConcat(a, b, f);
    ReportedConcat(a + b, c, f);
    ReportedConcat(a + b + c, d, f);
    ReportedConcat(a + b + c + d, e, f);
    ReportedConcat(a + b + c + d + e, g, f);
  }
}
