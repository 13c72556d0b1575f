/** From texts to what the verifier hears: the voice's expansions, and the normalisation of a text of items. */
module ReadbackSpeech {
  import opened Options
  import opened Text
  import opened TokenCollapse
  import FrequencyWords
  import opened FrequencySpeech
  import opened FrequencyNormaliser
  import opened FrequencyTwice
  import opened FrequencyRoundTrip
  import opened ReadbackTokens
  import opened ReadbackItems

  type Vocabulary = FrequencyWords.Vocabulary

  // ── Words ───────────────────────────────────────────────────────────────────

  function Upper(c: char): char {
    if 'a' <= c <= 'z' then c - 'a' + 'A' else c
  }

  function SideWord(c: char): string {
    match Lower(c) case 'l' => "Left" case 'r' => "Right" case _ => "Center"
  }

  function NumberWords(s: string, spelled: bool): seq<string>
    requires AllDigits(s)
  {
    if spelled then FrequencyWords.SpellWords(s) else [s]
  }

  /** The words of an item; a frequency is still to be spoken. */
  function WordsOf(it: Item, form: Form): (ws: seq<string>)
    requires ItemOk(it)
    ensures ws != []
  {
    match it
    case Neutral(w) => [w]
    case RunwayItem(n, None) => ["runway"] + NumberWords(n, form == SpelledOut)
    case RunwayItem(n, Some(c)) =>
      if form == Written then ["runway"] + [n + [Upper(c)]]
      else ["runway"] + NumberWords(n, form == SpelledOut) + [SideWord(c)]
    case LevelItem(s) => ["flight", "level"] + NumberWords(s, form != Written)
    case FeetItem(s) => [s, "feet"]
    case FrequencyItem(w, f) => [w + "." + f]
    case SquawkItem(s) => ["squawk"] + NumberWords(s, form != Written)
    case SpeedItem(s) => ["speed", s, "knots"]
    case SpeedMention => ["speed"]
  }

  function Words(items: seq<Item>, form: Form): seq<string>
    requires ItemsOk(items)
  {
    if items == [] then [] else WordsOf(items[0], form) + Words(items[1..], form)
  }

  // ── Laws of the word lists ──────────────────────────────────────────────────

  predicate Keyword(lx: Lexis, s: string, k: Kind) {
    lx.digit(s) == None && !lx.dot(s) && lx.kind(s) == k
  }

  predicate Keywords(lx: Lexis) {
    && Keyword(lx, "runway", RunwayWord) && Keyword(lx, "flight", Flight) && Keyword(lx, "level", Level)
    && Keyword(lx, "feet", Feet) && Keyword(lx, "squawk", SquawkWord)
    && Keyword(lx, "speed", SpeedWord) && Keyword(lx, "knots", Knots(true))
    && Keyword(lx, "left", Side('l')) && Keyword(lx, "right", Side('r')) && Keyword(lx, "center", Side('c'))
  }

  /** Only words that start with a letter are replaced, and each spelled digit is. */
  ghost predicate Sane(lx: Lexis) {
    && (forall s :: lx.digit(s).Some? || lx.dot(s) ==> s != "" && IsLetter(s[0]))
    && (forall d: nat :: d < 10 ==> lx.digit(FrequencyWords.DigitWord(d)) == Some(d))
    && Keywords(lx)
  }

  /** No keyword is a number word or a separator of the frequency normaliser. */
  predicate Apart(v: Vocabulary, s: string) {
    v.unit(s) < 0 && !FrequencyWords.IsGroupWord(v, s) && !v.sep(s)
  }

  predicate KeywordsApart(v: Vocabulary) {
    && Apart(v, "runway") && Apart(v, "flight") && Apart(v, "level") && Apart(v, "feet") && Apart(v, "squawk")
    && Apart(v, "speed") && Apart(v, "knots") && Apart(v, "left") && Apart(v, "right") && Apart(v, "center")
  }

  predicate AllLetters(w: string) {
    forall i :: 0 <= i < |w| ==> IsLetter(w[i])
  }

  /** A word that no stage and no extractor has a use for. */
  predicate NeutralWord(v: Vocabulary, lx: Lexis, w: string) {
    && w != "" && AllLetters(w) && !HasDecimal(w)
    && Keyword(lx, LowerAll(w), Kind.Plain) && !FrequencyWords.Num(v, w) && !FrequencyWords.Sep(v, w)
  }

  /** The items as they occur in texts. */
  predicate TextItem(v: Vocabulary, lx: Lexis, it: Item) {
    && ItemOk(it)
    && (it.Neutral? ==> NeutralWord(v, lx, it.w))
    && (it.FrequencyItem? ==> FrequencyWords.IsVhf(it.whole + "." + it.frac))
  }

  predicate TextItems(v: Vocabulary, lx: Lexis, items: seq<Item>)
    ensures TextItems(v, lx, items) ==> ItemsOk(items)
  {
    forall i :: 0 <= i < |items| ==> TextItem(v, lx, items[i])
  }

  // ── The verifier on texts ───────────────────────────────────────────────────

  /** `normalise` of the verifier, up to tokens. */
  function VerifierTokens(v: Vocabulary, lx: Lexis, text: string): seq<Token> {
    Pairs(LexAll(lx, Split(Normalised(v, text), "")))
  }

  /** What is said of the items: written, or spoken by the voice. */
  function Utterance(items: seq<Item>, form: Form): string
    requires ItemsOk(items)
  {
    if form == Written then Join(Words(items, form)) else SpeakText(Join(Words(items, form)))
  }

  // ── Words of letters and words of digits ────────────────────────────────────

  predicate NoDotWord(w: string) {
    w != "" && forall i :: 0 <= i < |w| ==> IsAlnum(w[i])
  }

  lemma {:induction false} SpokenAsIs(w: string, i: nat)
    requires NoDotWord(w) && i <= |w|
    ensures Rewrite(FrequencyEnd, SpellFrequency, w, i) == w[i..]
    decreases |w| - i
  {
    if i < |w| {
      assert !BandAt(w, i) by {
        assert i + 3 < |w| ==> IsAlnum(w[i+3]);
      }
      SpokenAsIs(w, i + 1);
      assert w[i..] == [w[i]] + w[i+1..];
    }
  }

  /** What holds of every word of a text of items. */
  predicate GoodWord(v: Vocabulary, w: string) {
    Stays(v, w) && Clean(w) && !HasDecimal(w) && !FrequencyWords.Sep(v, w) && FrequencyWords.Bare(w) == w
  }

  lemma AlnumIsGood(v: Vocabulary, w: string)
    requires NoDotWord(w) && !HasDecimal(w) && !FrequencyWords.Sep(v, w)
    ensures GoodWord(v, w) && !FrequencyWords.VhfWord(w)
  {
    SpokenAsIs(w, 0);
    WholeStays(v, w);
    assert |w| >= 7 ==> IsAlnum(w[3]) && w[..7][3] == w[3];
  }

  lemma ShortHasNoDecimal(w: string)
    requires |w| < 7
    ensures !HasDecimal(w)
  {}

  lemma DigitsAreGood(v: Vocabulary, s: string)
    requires FrequencyWords.Sensible(v) && s != "" && |s| < 7 && AllDigits(s)
    ensures GoodWord(v, s) && !FrequencyWords.VhfWord(s)
  {
    FrequencyWords.NormOfDigits(s);
    AlnumIsGood(v, s);
  }

  lemma VhfIsGood(v: Vocabulary, t: string)
    requires FrequencyWords.Sensible(v) && FrequencyWords.IsVhf(t)
    ensures GoodWord(v, t)
  {
    assert t[..7] == t && t[7..] == "";
    BareIsVhf(t);
    SaidStays(v, t);
    FrequencyWords.VhfWritten(v, t, FrequencyWords.SayVhf(t).value);
  }

  /** A keyword, in the case in which it is spoken. */
  predicate Spelling(w: string, s: string) {
    LowerAll(w) == s && FrequencyWords.LowerLetters(s) && 0 < |s| < 7
  }

  lemma {:induction false} NormIsLower(w: string)
    requires AllLetters(w)
    ensures FrequencyWords.Norm(w) == LowerAll(w)
    decreases |w|
  {
    if w != "" {
      NormIsLower(w[1..]);
    }
  }

  lemma SpellingHasLetters(w: string, s: string)
    requires Spelling(w, s)
    ensures AllLetters(w)
  {
    forall i | 0 <= i < |w|
      ensures IsLetter(w[i])
    {
      LowerAllAt(w, i);
      assert 'a' <= s[i] <= 'z';
    }
  }

  lemma NoGroup(w: string)
    requires FrequencyWords.LowerLetters(w)
    ensures !FrequencyWords.IsDigitGroup(w)
  {
    if w != "" {
      assert 'a' <= w[0] <= 'z';
    }
  }

  lemma KeywordIsGood(v: Vocabulary, w: string, s: string)
    requires Spelling(w, s) && Apart(v, s)
    ensures GoodWord(v, w) && !FrequencyWords.VhfWord(w) && !FrequencyWords.Num(v, w)
  {
    SpellingHasLetters(w, s);
    NormIsLower(w);
    NoGroup(s);
    AlnumIsGood(v, w);
  }

  lemma {:induction false} LowerStays(w: string)
    requires FrequencyWords.LowerLetters(w)
    ensures LowerAll(w) == w
    decreases |w|
  {
    if w != "" {
      assert 'a' <= w[0] <= 'z';
      LowerStays(w[1..]);
    }
  }

  lemma Lowercase(w: string)
    requires FrequencyWords.LowerLetters(w) && 0 < |w| < 7
    ensures Spelling(w, w)
  {
    LowerStays(w);
  }

  lemma Capital(c: char, w: string)
    requires 'A' <= c <= 'Z' && FrequencyWords.LowerLetters(w) && |w| < 6
    ensures Spelling([c] + w, [Lower(c)] + w)
  {
    LowerStays(w);
    assert ([c] + w)[1..] == w;
  }

  lemma SideIsSpelling(c: char)
    requires c in {'l', 'r', 'c'}
    ensures Spelling(SideWord(c), if c == 'l' then "left" else if c == 'r' then "right" else "center")
  {
    Capital('L', "eft");
    Capital('R', "ight");
    Capital('C', "enter");
    assert ['L'] + "eft" == "Left" && ['l'] + "eft" == "left";
    assert ['R'] + "ight" == "Right" && ['r'] + "ight" == "right";
    assert ['C'] + "enter" == "Center" && ['c'] + "enter" == "center";
  }

  // ── The words of an item ────────────────────────────────────────────────────

  /** A word that is no frequency may stand next to one only if it is no number. */
  predicate GoodWords(v: Vocabulary, ws: seq<string>) {
    forall i :: 0 <= i < |ws| ==> GoodWord(v, ws[i])
  }

  predicate NoneVhf(ws: seq<string>) {
    forall i :: 0 <= i < |ws| ==> !FrequencyWords.VhfWord(ws[i])
  }

  ghost predicate Laws(v: Vocabulary, lx: Lexis) {
    FrequencyWords.Sensible(v) && KeywordsApart(v) && Sane(lx)
  }

  lemma {:induction false} SpelledGood(v: Vocabulary, s: string)
    requires FrequencyWords.Sensible(v) && AllDigits(s)
    ensures GoodWords(v, FrequencyWords.SpellWords(s)) && NoneVhf(FrequencyWords.SpellWords(s))
    decreases |s|
  {
    if s != "" {
      var d := DigitValue(s[|s|-1]);
      SpelledGood(v, s[..|s|-1]);
      FrequencyWords.DigitWordLetters(d);
      FrequencyWords.DigitWordFacts(v, d);
      AlnumIsGood(v, FrequencyWords.DigitWord(d));
    }
  }

  lemma NumberGood(v: Vocabulary, s: string, spelled: bool)
    requires FrequencyWords.Sensible(v) && AllDigits(s) && 0 < |s| < 7
    ensures GoodWords(v, NumberWords(s, spelled)) && NoneVhf(NumberWords(s, spelled))
  {
    SpelledGood(v, s);
    DigitsAreGood(v, s);
  }

  lemma PlainKeyword(v: Vocabulary, w: string)
    requires FrequencyWords.LowerLetters(w) && 0 < |w| < 7 && Apart(v, w)
    ensures GoodWords(v, [w]) && NoneVhf([w])
  {
    Lowercase(w);
    KeywordIsGood(v, w, w);
  }

  lemma GoodConcat(v: Vocabulary, a: seq<string>, b: seq<string>)
    requires GoodWords(v, a) && NoneVhf(a) && GoodWords(v, b) && NoneVhf(b)
    ensures GoodWords(v, a + b) && NoneVhf(a + b)
  {}

  lemma SideIsGood(v: Vocabulary, c: char)
    requires KeywordsApart(v) && c in {'l', 'r', 'c'}
    ensures GoodWord(v, SideWord(c)) && !FrequencyWords.VhfWord(SideWord(c))
  {
    SideIsSpelling(c);
    KeywordIsGood(v, SideWord(c), if c == 'l' then "left" else if c == 'r' then "right" else "center");
  }

  lemma DesignatorIsGood(v: Vocabulary, n: string, c: char)
    requires FrequencyWords.Sensible(v) && Figures(n, 1, 2) && c in {'l', 'r', 'c'}
    ensures GoodWord(v, n + [Upper(c)]) && !FrequencyWords.VhfWord(n + [Upper(c)])
  {
    var w := n + [Upper(c)];
    FrequencyWords.NormConcat(n, [Upper(c)]);
    FrequencyWords.NormOfDigits(n);
    assert FrequencyWords.Norm(w)[0] == n[0];
    AlnumIsGood(v, w);
  }

  lemma RunwayWordGood(v: Vocabulary)
    requires Apart(v, "runway")
    ensures GoodWords(v, ["runway"]) && NoneVhf(["runway"])
  {
    PlainKeyword(v, "runway");
  }

  lemma RunwayGood(v: Vocabulary, n: string, side: Option<char>, form: Form)
    requires FrequencyWords.Sensible(v) && KeywordsApart(v) && ItemOk(RunwayItem(n, side))
    ensures var ws := WordsOf(RunwayItem(n, side), form); GoodWords(v, ws) && NoneVhf(ws)
  {
    var number := NumberWords(n, form == SpelledOut);
    RunwayWordGood(v);
    NumberGood(v, n, form == SpelledOut);
    GoodConcat(v, ["runway"], number);
    if side.Some? {
      if form == Written {
        DesignatorIsGood(v, n, side.value);
        GoodConcat(v, ["runway"], [n + [Upper(side.value)]]);
      } else {
        SideIsGood(v, side.value);
        GoodConcat(v, ["runway"] + number, [SideWord(side.value)]);
      }
    }
  }

  lemma LevelGood(v: Vocabulary, s: string, form: Form)
    requires FrequencyWords.Sensible(v) && KeywordsApart(v) && ItemOk(LevelItem(s))
    ensures var ws := WordsOf(LevelItem(s), form); GoodWords(v, ws) && NoneVhf(ws)
  {
    PlainKeyword(v, "flight");
    PlainKeyword(v, "level");
    NumberGood(v, s, form != Written);
    GoodConcat(v, ["flight"], ["level"]);
    assert ["flight", "level"] == ["flight"] + ["level"];
    GoodConcat(v, ["flight", "level"], NumberWords(s, form != Written));
  }

  lemma FeetGood(v: Vocabulary, s: string)
    requires FrequencyWords.Sensible(v) && KeywordsApart(v) && ItemOk(FeetItem(s))
    ensures GoodWords(v, [s, "feet"]) && NoneVhf([s, "feet"])
  {
    PlainKeyword(v, "feet");
    DigitsAreGood(v, s);
    GoodConcat(v, [s], ["feet"]);
    assert [s, "feet"] == [s] + ["feet"];
  }

  lemma SquawkGood(v: Vocabulary, s: string, form: Form)
    requires FrequencyWords.Sensible(v) && KeywordsApart(v) && ItemOk(SquawkItem(s))
    ensures var ws := WordsOf(SquawkItem(s), form); GoodWords(v, ws) && NoneVhf(ws)
  {
    PlainKeyword(v, "squawk");
    NumberGood(v, s, form != Written);
    GoodConcat(v, ["squawk"], NumberWords(s, form != Written));
  }

  lemma SpeedGood(v: Vocabulary, s: string)
    requires FrequencyWords.Sensible(v) && KeywordsApart(v) && ItemOk(SpeedItem(s))
    ensures GoodWords(v, ["speed", s, "knots"]) && NoneVhf(["speed", s, "knots"])
  {
    PlainKeyword(v, "speed");
    PlainKeyword(v, "knots");
    DigitsAreGood(v, s);
    GoodConcat(v, ["speed"], [s]);
    GoodConcat(v, ["speed"] + [s], ["knots"]);
    assert ["speed", s, "knots"] == ["speed"] + [s] + ["knots"];
  }

  lemma SpeedWordGood(v: Vocabulary)
    requires Apart(v, "speed")
    ensures GoodWords(v, ["speed"]) && NoneVhf(["speed"])
    ensures !FrequencyWords.Num(v, "speed") && !FrequencyWords.Sep(v, "speed")
  {
    PlainKeyword(v, "speed");
    Lowercase("speed");
    KeywordIsGood(v, "speed", "speed");
    assert GoodWord(v, "speed");
  }

  lemma NeutralGood(v: Vocabulary, lx: Lexis, w: string)
    requires NeutralWord(v, lx, w)
    ensures GoodWords(v, [w]) && NoneVhf([w])
  {
    AlnumIsGood(v, w);
  }

  /** Items whose value is a number. */
  lemma NumberItemGood(v: Vocabulary, it: Item, form: Form)
    requires FrequencyWords.Sensible(v) && KeywordsApart(v) && ItemOk(it) && !Wordy(it) && !it.FrequencyItem?
    ensures GoodWords(v, WordsOf(it, form)) && NoneVhf(WordsOf(it, form))
  {
    match it
    case RunwayItem(n, side) => RunwayGood(v, n, side, form);
    case LevelItem(s) => LevelGood(v, s, form);
    case FeetItem(s) => FeetGood(v, s);
    case SquawkItem(s) => SquawkGood(v, s, form);
    case SpeedItem(s) => SpeedGood(v, s);
  }

  lemma WordsAreGood(v: Vocabulary, lx: Lexis, it: Item, form: Form)
    requires Laws(v, lx) && TextItem(v, lx, it)
    ensures GoodWords(v, WordsOf(it, form))
    ensures !it.FrequencyItem? ==> NoneVhf(WordsOf(it, form))
  {
    match it
    case Neutral(w) => NeutralGood(v, lx, w);
    case SpeedMention => SpeedWordGood(v);
    case FrequencyItem(w, f) => VhfIsGood(v, w + "." + f);
    case _ => NumberItemGood(v, it, form);
  }

  // ── The words of a text ─────────────────────────────────────────────────────

  lemma {:induction false} NoDecimalIsQuiet(prev: string, ws: seq<string>)
    requires forall i :: 0 <= i < |ws| ==> !HasDecimal(ws[i])
    ensures Quiet(prev, ws)
    decreases |ws|
  {
    if ws != [] {
      NoDecimalIsQuiet(ws[0], ws[1..]);
    }
  }

  lemma {:induction false} DelimitedBlock(v: Vocabulary, block: seq<string>, rest: seq<string>)
    requires block != [] && NoneVhf(block) && Delimited(FrequencyWords.Vhf(v), FrequencyWords.SayVhf, rest)
    requires rest != [] && FrequencyWords.VhfWord(rest[0]) ==>
               !FrequencyWords.Num(v, block[|block|-1]) && !FrequencyWords.Sep(v, block[|block|-1])
    ensures Delimited(FrequencyWords.Vhf(v), FrequencyWords.SayVhf, block + rest)
  {
    var ts := block + rest;
    forall i, j | 0 <= i < j < |ts| && j == i + 1
      ensures FrequencyWords.VhfWord(ts[j]) ==>
                !FrequencyWords.Num(v, ts[i]) && !FrequencyWords.Sep(v, ts[i]) && !FrequencyWords.VhfWord(ts[i])
      ensures FrequencyWords.VhfWord(ts[i]) ==> !FrequencyWords.Num(v, ts[j])
    {
      if i >= |block| {
        assert ts[i] == rest[i - |block|] && ts[j] == rest[j - |block|];
      }
    }
  }

  lemma DelimitedFrequency(v: Vocabulary, t: string, rest: seq<string>)
    requires Delimited(FrequencyWords.Vhf(v), FrequencyWords.SayVhf, rest)
    requires rest != [] ==> !FrequencyWords.VhfWord(rest[0]) && !FrequencyWords.Num(v, rest[0])
    ensures Delimited(FrequencyWords.Vhf(v), FrequencyWords.SayVhf, [t] + rest)
  {
    var ts := [t] + rest;
    forall i, j | 0 <= i < j < |ts| && j == i + 1
      ensures FrequencyWords.VhfWord(ts[j]) ==>
                !FrequencyWords.Num(v, ts[i]) && !FrequencyWords.Sep(v, ts[i]) && !FrequencyWords.VhfWord(ts[i])
      ensures FrequencyWords.VhfWord(ts[i]) ==> !FrequencyWords.Num(v, ts[j])
    {
      if i >= 1 {
        assert ts[i] == rest[i-1] && ts[j] == rest[j-1];
      }
    }
  }

  lemma WordyIsNoNumber(v: Vocabulary, lx: Lexis, it: Item, form: Form)
    requires Laws(v, lx) && TextItem(v, lx, it)
    ensures Wordy(it) ==> |WordsOf(it, form)| == 1
                          && !FrequencyWords.Num(v, WordsOf(it, form)[0]) && !FrequencyWords.Sep(v, WordsOf(it, form)[0])
  {
    if it.SpeedMention? {
      SpeedWordGood(v);
    }
  }

  /** How a text starts, as far as its neighbours go. */
  lemma TextStart(v: Vocabulary, lx: Lexis, items: seq<Item>, form: Form)
    requires Laws(v, lx) && TextItems(v, lx, items) && items != []
    ensures var w := Words(items, form)[0];
            && (!items[0].FrequencyItem? ==> !FrequencyWords.VhfWord(w)) && (Wordy(items[0]) ==> !FrequencyWords.Num(v, w))
  {
    WordsAreGood(v, lx, items[0], form);
    WordyIsNoNumber(v, lx, items[0], form);
    assert Words(items, form)[0] == WordsOf(items[0], form)[0];
  }

  /** A frequency is spoken apart from its neighbours. */
  lemma ItemDelimited(v: Vocabulary, lx: Lexis, items: seq<Item>, form: Form)
    requires Laws(v, lx) && TextItems(v, lx, items) && Spaced(items) && items != []
    requires Delimited(FrequencyWords.Vhf(v), FrequencyWords.SayVhf, Words(items[1..], form))
    ensures Delimited(FrequencyWords.Vhf(v), FrequencyWords.SayVhf, Words(items, form))
  {
    var it, rest := items[0], Words(items[1..], form);
    if |items| > 1 {
      TextStart(v, lx, items[1..], form);
    }
    if it.FrequencyItem? {
      DelimitedFrequency(v, it.whole + "." + it.frac, rest);
    } else {
      WordsAreGood(v, lx, it, form);
      WordyIsNoNumber(v, lx, it, form);
      DelimitedBlock(v, WordsOf(it, form), rest);
    }
  }

  lemma {:induction false} TextWords(v: Vocabulary, lx: Lexis, items: seq<Item>, form: Form)
    requires Laws(v, lx) && TextItems(v, lx, items) && Spaced(items)
    ensures GoodWords(v, Words(items, form))
    ensures Delimited(FrequencyWords.Vhf(v), FrequencyWords.SayVhf, Words(items, form))
    decreases |items|
  {
    if items != [] {
      TextWords(v, lx, items[1..], form);
      WordsAreGood(v, lx, items[0], form);
      ItemDelimited(v, lx, items, form);
    }
  }

  lemma {:induction false} NoSeparatorIsNormal(v: Vocabulary, ws: seq<string>)
    requires GoodWords(v, ws)
    ensures NormalForm(FrequencyWords.Vhf(v), ws)
  {
    forall j | 0 <= j < |ws|
      ensures Settled(FrequencyWords.Vhf(v), ws, j)
    {
      assert GoodWord(v, ws[j]);
    }
  }

  /** Every text of items is normalised to its words, whether written or spoken. */
  lemma NormalisedUtterance(v: Vocabulary, lx: Lexis, items: seq<Item>, form: Form)
    requires Laws(v, lx) && TextItems(v, lx, items) && Spaced(items)
    ensures Normalised(v, Utterance(items, form)) == Join(Words(items, form))
    ensures AllWords(Words(items, form))
  {
    var ws := Words(items, form);
    TextWords(v, lx, items, form);
    assert AllStay(v, ws) && BareAll(ws) == ws;
    NoDecimalIsQuiet("", ws);
    NoSeparatorIsNormal(v, ws);
    PushStaying(v, ws);
    SpokenTextComesBack(v, ws);
    SpeechIsHeard(v, ws);
  }

  // ── Punctuation ─────────────────────────────────────────────────────────────

  lemma PunctuatedIsClean(v: Vocabulary, f: string, p: string)
    requires FrequencyWords.Sensible(v) && FrequencyWords.IsVhf(f) && FrequencyWords.Punctuation(p)
    ensures var w := f + p;
            && FrequencyWords.VhfWord(w) && FrequencyWords.Bare(w) == f && GoodWord(v, f)
            && Stays(v, w) && !HasDecimal(w)
  {
    var w := f + p;
    assert w[..7] == f && w[7..] == p;
    SaidStays(v, w);
    VhfHasNoDecimal(w);
    VhfIsGood(v, f);
  }

  lemma {:induction false} GoodAreBare(v: Vocabulary, ws: seq<string>, w: string)
    requires GoodWords(v, ws)
    ensures BareAll(ws + [w]) == ws + [FrequencyWords.Bare(w)]
  {}

  lemma ClosingDelimited(v: Vocabulary, ws: seq<string>, w: string)
    requires GoodWords(v, ws) && NoneVhf(ws) && (ws != [] ==> !FrequencyWords.Num(v, ws[|ws|-1]))
    ensures Delimited(FrequencyWords.Vhf(v), FrequencyWords.SayVhf, ws + [w])
  {
    if ws == [] {
      assert ws + [w] == [w];
    } else {
      DelimitedBlock(v, ws, [w]);
    }
  }

  lemma ClosingSpeakable(v: Vocabulary, ws: seq<string>, f: string, p: string)
    requires FrequencyWords.Sensible(v) && FrequencyWords.IsVhf(f) && FrequencyWords.Punctuation(p)
    requires GoodWords(v, ws) && NoneVhf(ws) && (ws != [] ==> !FrequencyWords.Num(v, ws[|ws|-1]))
    ensures Speakable(v, ws + [f + p]) && AllStay(v, ws + [f + p])
  {
    var all := ws + [f + p];
    PunctuatedIsClean(v, f, p);
    forall i | 0 <= i < |all|
      ensures Stays(v, all[i]) && Clean(all[i]) && !HasDecimal(all[i])
    {
      if i < |ws| {
        assert GoodWord(v, ws[i]);
      }
    }
    NoDecimalIsQuiet("", all);
    PushStaying(v, all);
    ClosingDelimited(v, ws, f + p);
  }

  lemma ClosingBare(v: Vocabulary, ws: seq<string>, f: string, p: string)
    requires FrequencyWords.Sensible(v) && FrequencyWords.IsVhf(f) && FrequencyWords.Punctuation(p) && GoodWords(v, ws)
    ensures BareAll(ws + [f + p]) == ws + [f] && NormalForm(FrequencyWords.Vhf(v), ws + [f])
  {
    PunctuatedIsClean(v, f, p);
    GoodAreBare(v, ws, f + p);
    NoSeparatorIsNormal(v, ws + [f]);
  }

  /** A sentence that ends in a frequency comes back from the voice without its full stop. */
  lemma ClosingFrequencyComesBack(v: Vocabulary, ws: seq<string>, f: string, p: string)
    requires FrequencyWords.Sensible(v) && FrequencyWords.IsVhf(f) && FrequencyWords.Punctuation(p)
    requires GoodWords(v, ws) && NoneVhf(ws) && (ws != [] ==> !FrequencyWords.Num(v, ws[|ws|-1]))
    ensures Normalised(v, SpeakText(Join(ws + [f + p]))) == Join(ws + [f])
  {
    ClosingSpeakable(v, ws, f, p);
    ClosingBare(v, ws, f, p);
    SpokenTextComesBack(v, ws + [f + p]);
  }
}
