/** The expansions that the controller's voice applies before it speaks: squawk codes, flight levels, runways. */
module VoiceExpansion {
  import opened Options
  import opened Text
  import opened FrequencySpeech
  import opened ReadbackTokens
  import opened ReadbackItems
  import opened ReadbackSpeech
  import FrequencyWords

  // ── Rewriting a text word by word ───────────────────────────────────────────

  /** What the start of a text is replaced by, and how many words of it. */
  type Step = seq<string> -> Option<(nat, seq<string>)>

  function Expand(step: Step, ws: seq<string>): seq<string>
    decreases |ws|
  {
    if ws == [] then []
    else match step(ws)
      case Some(r) => if 1 <= r.0 <= |ws| then r.1 + Expand(step, ws[r.0..]) else [ws[0]] + Expand(step, ws[1..])
      case None => [ws[0]] + Expand(step, ws[1..])
  }

  method ExpandWords(step: Step, ws: seq<string>) returns (out: seq<string>)
    ensures out == Expand(step, ws)
  {
    out := [];
    var i := 0;
    while i < |ws|
      invariant 0 <= i <= |ws|
      invariant out + Expand(step, ws[i..]) == Expand(step, ws)
    {
      var r := step(ws[i..]);
      ExpandAt(step, ws, i, out);
      if r.Some? && 1 <= r.value.0 <= |ws| - i {
        out, i := out + r.value.1, i + r.value.0;
      } else {
        out, i := out + [ws[i]], i + 1;
      }
    }
  }

  lemma ExpandAt(step: Step, ws: seq<string>, i: nat, out: seq<string>)
    requires i < |ws|
    ensures var r := step(ws[i..]);
            out + Expand(step, ws[i..]) ==
            if r.Some? && 1 <= r.value.0 <= |ws| - i then (out + r.value.1) + Expand(step, ws[i + r.value.0..])
            else (out + [ws[i]]) + Expand(step, ws[i+1..])
  {
    var r := step(ws[i..]);
    assert ws[i..][1..] == ws[i+1..] && ws[i..][0] == ws[i];
    if r.Some? && 1 <= r.value.0 <= |ws| - i {
      assert ws[i..][r.value.0..] == ws[i + r.value.0..];
    }
  }

  // ── The three expansions ────────────────────────────────────────────────────

  predicate DigitString(w: string) {
    w != "" && AllDigits(w)
  }

  /** `expand_squawk`: "squawk 2370" is spoken digit by digit. */
  function SquawkStep(ws: seq<string>): Option<(nat, seq<string>)> {
    if |ws| > 1 && LowerAll(ws[0]) == "squawk" && DigitString(ws[1])
    then Some((2, [ws[0]] + FrequencyWords.SpellWords(ws[1]))) else None
  }

  predicate EndsIn(s: string, t: string) {
    |s| >= |t| && s[|s| - |t|..] == t
  }

  /** "FL210" as one word. */
  predicate Glued(w: string) {
    |w| > 2 && LowerAll(w[..2]) == "fl" && AllDigits(w[2..])
  }

  /** `expand_flight_levels`: "flight level 210", "FL 210" and "FL210". */
  function LevelStep(ws: seq<string>): Option<(nat, seq<string>)> {
    if |ws| > 2 && EndsIn(LowerAll(ws[0]), "flight") && LowerAll(ws[1]) == "level" && DigitString(ws[2])
    then Some((3, [ws[0], ws[1]] + FrequencyWords.SpellWords(ws[2])))
    else if |ws| > 1 && LowerAll(ws[0]) == "fl" && DigitString(ws[1])
    then Some((2, ["flight", "level"] + FrequencyWords.SpellWords(ws[1])))
    else if ws != [] && Glued(ws[0]) then Some((1, ["flight", "level"] + FrequencyWords.SpellWords(ws[0][2..])))
    else None
  }

  predicate DesignatorWord(w: string) {
    |w| > 1 && AllDigits(w[..|w|-1]) && Lower(w[|w|-1]) in {'l', 'r', 'c'}
  }

  /** `expand_runways`: "runway 04R" is "runway 04 Right". */
  function RunwayStep(ws: seq<string>): Option<(nat, seq<string>)> {
    if |ws| > 1 && EndsIn(ws[0], "runway") && DesignatorWord(ws[1])
    then Some((2, [ws[0], ws[1][..|ws[1]|-1], SideWord(ws[1][|ws[1]|-1])])) else None
  }

  /** In the order in which the voice applies them. */
  function StepOf(stage: nat): Step {
    if stage == 1 then SquawkStep else if stage == 2 then LevelStep else RunwayStep
  }

  /** The text after the first so many expansions. */
  function ExpandTo(stage: nat, ws: seq<string>): seq<string> {
    if stage == 0 then ws else Expand(StepOf(stage), ExpandTo(stage - 1, ws))
  }

  /** What is spoken of a text of words. */
  function Voice(ws: seq<string>): string {
    SpeakText(Join(ExpandTo(3, ws)))
  }

  // ── On texts of items ───────────────────────────────────────────────────────

  /** The forms between the written and the spoken one: after no, one, two and three expansions. */
  function StageForm(it: Item, stage: nat): Form {
    if it.SquawkItem? then (if stage >= 1 then Spoken else Written)
    else if it.LevelItem? then (if stage >= 2 then Spoken else Written)
    else if stage >= 3 then Spoken else Written
  }

  function StageWords(items: seq<Item>, stage: nat): seq<string>
    requires ItemsOk(items)
  {
    if items == [] then [] else WordsOf(items[0], StageForm(items[0], stage)) + StageWords(items[1..], stage)
  }

  lemma {:induction false} FirstStage(items: seq<Item>)
    requires ItemsOk(items)
    ensures StageWords(items, 0) == Words(items, Written) && StageWords(items, 3) == Words(items, Spoken)
  {
    if items != [] {
      FirstStage(items[1..]);
    }
  }

  /** Nothing starts at any word of the block. */
  ghost predicate Inert(step: Step, block: seq<string>) {
    forall w, tail: seq<string> {:trigger [w] + tail} :: w in block ==> step([w] + tail) == None
  }

  lemma {:induction false} ExpandSkips(step: Step, block: seq<string>, rest: seq<string>)
    requires Inert(step, block)
    ensures Expand(step, block + rest) == block + Expand(step, rest)
    decreases |block|
  {
    if block == [] {
      assert block + rest == rest;
    } else {
      var tail := block[1..] + rest;
      assert block + rest == [block[0]] + tail && (block + rest)[1..] == tail;
      ExpandSkips(step, block[1..], rest);
      assert [block[0]] + (block[1..] + Expand(step, rest)) == block + Expand(step, rest);
    }
  }

  lemma ExpandFires(step: Step, block: seq<string>, out: seq<string>, rest: seq<string>)
    requires block != [] && step(block + rest) == Some((|block|, out))
    ensures Expand(step, block + rest) == out + Expand(step, rest)
  {
    assert (block + rest)[|block|..] == rest;
  }

  // ── Words that start nothing ────────────────────────────────────────────────

  lemma InertConcat(step: Step, a: seq<string>, b: seq<string>)
    requires Inert(step, a) && Inert(step, b)
    ensures Inert(step, a + b)
  {}

  /** No expansion starts at a word that is none of the three keywords. */
  predicate Harmless(w: string) {
    LowerAll(w) != "squawk" && !EndsIn(LowerAll(w), "flight") && LowerAll(w) != "fl" && !Glued(w) && !EndsIn(w, "runway")
  }

  lemma HarmlessIsInert(ws: seq<string>)
    requires forall i :: 0 <= i < |ws| ==> Harmless(ws[i])
    ensures Inert(SquawkStep, ws) && Inert(LevelStep, ws) && Inert(RunwayStep, ws)
  {
    forall w, tail: seq<string> | w in ws
      ensures SquawkStep([w] + tail) == LevelStep([w] + tail) == RunwayStep([w] + tail) == None
    {
      assert ([w] + tail)[0] == w;
    }
  }

  lemma EndsInLast(s: string, t: string)
    requires t != ""
    ensures EndsIn(s, t) ==> |s| >= |t| && s[|s|-1] == t[|t|-1]
  {
    if EndsIn(s, t) {
      assert s[|s| - |t|..][|t|-1] == s[|s|-1];
    }
  }

  lemma DigitStartHarmless(w: string)
    requires w != "" && IsDigit(w[0]) && (|w| <= 3 || !IsLetter(w[|w|-1]))
    ensures Harmless(w)
  {
    LowerAllAt(w, 0);
    LowerAllAt(w, |w| - 1);
    EndsInLast(LowerAll(w), "flight");
    EndsInLast(w, "runway");
    if |w| > 2 {
      LowerAllAt(w[..2], 0);
    }
  }

  lemma LettersNotGlued(w: string)
    requires AllLetters(w)
    ensures !Glued(w)
  {
    if |w| > 2 {
      assert w[2..][0] == w[2];
    }
  }

  lemma ShortHarmless(w: string)
    requires 2 < |w| < 6 && AllLetters(w)
    ensures Harmless(w)
  {
    LettersNotGlued(w);
  }

  lemma ShortKeyword(w: string)
    requires FrequencyWords.LowerLetters(w) && 2 < |w| < 6
    ensures Inert(SquawkStep, [w]) && Inert(LevelStep, [w]) && Inert(RunwayStep, [w])
  {
    ShortHarmless(w);
    HarmlessIsInert([w]);
  }

  lemma {:induction false} SpelledHarmless(s: string)
    requires AllDigits(s)
    ensures forall i :: 0 <= i < |s| ==> Harmless(FrequencyWords.SpellWords(s)[i])
    decreases |s|
  {
    if s != "" {
      var d := DigitValue(s[|s|-1]);
      SpelledHarmless(s[..|s|-1]);
      FrequencyWords.DigitWordLetters(d);
      ShortHarmless(FrequencyWords.DigitWord(d));
    }
  }

  lemma NumberInert(s: string, spelled: bool)
    requires DigitString(s)
    ensures var ws := NumberWords(s, spelled); Inert(SquawkStep, ws) && Inert(LevelStep, ws) && Inert(RunwayStep, ws)
  {
    SpelledHarmless(s);
    DigitStartHarmless(s);
    HarmlessIsInert(NumberWords(s, spelled));
  }

  lemma NoSquawk(w: string)
    requires LowerAll(w) != "squawk"
    ensures Inert(SquawkStep, [w])
  {
    forall tail: seq<string>
      ensures SquawkStep([w] + tail) == None
    {
      assert ([w] + tail)[0] == w;
    }
  }

  lemma NoLevel(w: string)
    requires !EndsIn(LowerAll(w), "flight") && LowerAll(w) != "fl" && !Glued(w)
    ensures Inert(LevelStep, [w])
  {
    forall tail: seq<string>
      ensures LevelStep([w] + tail) == None
    {
      assert ([w] + tail)[0] == w;
    }
  }

  lemma NoRunwayWord(w: string)
    requires !EndsIn(w, "runway")
    ensures Inert(RunwayStep, [w])
  {
    forall tail: seq<string>
      ensures RunwayStep([w] + tail) == None
    {
      assert ([w] + tail)[0] == w;
    }
  }

  lemma KeywordNoLevel(w: string)
    requires FrequencyWords.LowerLetters(w) && |w| == 6 && w[5] != 't'
    ensures Inert(LevelStep, [w])
  {
    LowerStays(w);
    LettersNotGlued(w);
    EndsInLast(w, "flight");
    NoLevel(w);
  }

  lemma RunwayInert()
    ensures Inert(SquawkStep, ["runway"]) && Inert(LevelStep, ["runway"])
  {
    LowerStays("runway");
    NoSquawk("runway");
    KeywordNoLevel("runway");
  }

  lemma FlightInert()
    ensures Inert(SquawkStep, ["flight"]) && Inert(RunwayStep, ["flight"])
  {
    LowerStays("flight");
    NoSquawk("flight");
    EndsInLast("flight", "runway");
    NoRunwayWord("flight");
  }

  lemma SquawkInert()
    ensures Inert(LevelStep, ["squawk"]) && Inert(RunwayStep, ["squawk"])
  {
    KeywordNoLevel("squawk");
    EndsInLast("squawk", "runway");
    NoRunwayWord("squawk");
  }

  // ── One item, one expansion ─────────────────────────────────────────────────

  /** Plain words are no keywords of the expansions. */
  ghost predicate VoiceLaws(lx: Lexis) {
    forall s :: lx.kind(s) == Kind.Plain ==> s != "fl" && !EndsIn(s, "flight")
  }

  predicate Speakable(v: Vocabulary, lx: Lexis, items: seq<Item>)
    ensures Speakable(v, lx, items) ==> ItemsOk(items)
  {
    TextItems(v, lx, items) && Spaced(items)
    && forall i :: 0 <= i < |items| ==> items[i].Neutral? ==> !EndsIn(items[i].w, "runway")
  }

  lemma NeutralInert(v: Vocabulary, lx: Lexis, w: string)
    requires Laws(v, lx) && VoiceLaws(lx) && NeutralWord(v, lx, w) && !EndsIn(w, "runway")
    ensures Inert(SquawkStep, [w]) && Inert(LevelStep, [w]) && Inert(RunwayStep, [w])
  {
    LettersNotGlued(w);
    NotSquawk(lx, LowerAll(w));
    NoSquawk(w);
    NoLevel(w);
    NoRunwayWord(w);
  }

  lemma NotSquawk(lx: Lexis, s: string)
    requires Sane(lx) && lx.kind(s) == Kind.Plain
    ensures s != "squawk"
  {}

  lemma FeetInert(s: string)
    requires DigitString(s)
    ensures var ws := [s, "feet"]; Inert(SquawkStep, ws) && Inert(LevelStep, ws) && Inert(RunwayStep, ws)
  {
    NumberInert(s, false);
    ShortKeyword("feet");
    assert [s, "feet"] == [s] + ["feet"];
    InertConcat(SquawkStep, [s], ["feet"]);
    InertConcat(LevelStep, [s], ["feet"]);
    InertConcat(RunwayStep, [s], ["feet"]);
  }

  lemma SpeedInert(s: string)
    requires DigitString(s)
    ensures var ws := ["speed", s, "knots"]; Inert(SquawkStep, ws) && Inert(LevelStep, ws) && Inert(RunwayStep, ws)
  {
    NumberInert(s, false);
    ShortKeyword("speed");
    ShortKeyword("knots");
    var ws := ["speed", s, "knots"];
    assert forall w :: w in ws ==> w in ["speed"] || w in [s] || w in ["knots"];
  }

  lemma FrequencyInert(w: string, f: string)
    requires Figures(w, 3, 3) && Figures(f, 3, 3)
    ensures var ws := [w + "." + f]; Inert(SquawkStep, ws) && Inert(LevelStep, ws) && Inert(RunwayStep, ws)
  {
    var t := w + "." + f;
    assert t[0] == w[0] && t[|t|-1] == f[2];
    DigitStartHarmless(t);
    HarmlessIsInert([t]);
  }

  lemma MentionInert()
    ensures Inert(SquawkStep, ["speed"]) && Inert(LevelStep, ["speed"]) && Inert(RunwayStep, ["speed"])
  {
    ShortKeyword("speed");
  }

  /** Nothing starts at any of these words. */
  ghost predicate Untouchable(ws: seq<string>) {
    Inert(SquawkStep, ws) && Inert(LevelStep, ws) && Inert(RunwayStep, ws)
  }

  /** Items that no expansion touches. */
  lemma OtherInert(v: Vocabulary, lx: Lexis, it: Item, form: Form)
    requires Laws(v, lx) && VoiceLaws(lx) && TextItem(v, lx, it) && (it.Neutral? ==> !EndsIn(it.w, "runway"))
    requires Wordy(it) || it.FeetItem? || it.FrequencyItem? || it.SpeedItem?
    ensures WordsOf(it, form) == WordsOf(it, Written)
    ensures Untouchable(WordsOf(it, form))
  {
    match it
    case Neutral(w) => NeutralInert(v, lx, w);
    case SpeedMention => MentionInert();
    case FeetItem(s) => FeetInert(s);
    case FrequencyItem(w, f) => FrequencyInert(w, f);
    case SpeedItem(s) => SpeedInert(s);
  }

  lemma SquawkExpands(s: string, rest: seq<string>)
    requires Figures(s, 4, 4)
    ensures Expand(SquawkStep, WordsOf(SquawkItem(s), Written) + rest)
            == WordsOf(SquawkItem(s), Spoken) + Expand(SquawkStep, rest)
  {
    LowerStays("squawk");
    var block := ["squawk"] + [s];
    assert (block + rest)[0] == "squawk" && (block + rest)[1] == s;
    ExpandFires(SquawkStep, block, ["squawk"] + FrequencyWords.SpellWords(s), rest);
  }

  lemma LevelExpands(s: string, rest: seq<string>)
    requires Figures(s, 1, 3)
    ensures Expand(LevelStep, WordsOf(LevelItem(s), Written) + rest)
            == WordsOf(LevelItem(s), Spoken) + Expand(LevelStep, rest)
  {
    LowerStays("flight");
    LowerStays("level");
    var block := ["flight", "level"] + [s];
    var ts := block + rest;
    assert ts[0] == "flight" && ts[1] == "level" && ts[2] == s;
    assert "flight"[|"flight"| - 6..] == "flight";
    ExpandFires(LevelStep, block, ["flight", "level"] + FrequencyWords.SpellWords(s), rest);
  }

  lemma RunwaySideExpands(n: string, c: char, rest: seq<string>)
    requires ItemOk(RunwayItem(n, Some(c)))
    ensures Expand(RunwayStep, WordsOf(RunwayItem(n, Some(c)), Written) + rest)
            == WordsOf(RunwayItem(n, Some(c)), Spoken) + Expand(RunwayStep, rest)
  {
    var w := n + [Upper(c)];
    var block := ["runway"] + [w];
    var ts := block + rest;
    assert ts[0] == "runway" && ts[1] == w && w[..|w|-1] == n;
    assert "runway"[|"runway"| - 6..] == "runway";
    var out := ["runway", n, SideWord(Upper(c))];
    assert out == ["runway"] + [n] + [SideWord(c)];
    ExpandFires(RunwayStep, block, out, rest);
  }

  /** A runway without a side stays: what follows the number is no designator. */
  lemma RunwayPlainStays(n: string, rest: seq<string>)
    requires Figures(n, 1, 2)
    ensures Expand(RunwayStep, ["runway"] + [n] + rest) == ["runway"] + [n] + Expand(RunwayStep, rest)
  {
    var tail := [n] + rest;
    assert ["runway"] + [n] + rest == ["runway"] + tail;
    assert (["runway"] + tail)[1] == n && !DesignatorWord(n);
    assert RunwayStep(["runway"] + tail) == None;
    assert (["runway"] + tail)[1..] == tail;
    NumberInert(n, false);
    ExpandSkips(RunwayStep, [n], rest);
  }

  lemma RunwayWordsInert(n: string, side: Option<char>)
    requires ItemOk(RunwayItem(n, side))
    ensures var ws := WordsOf(RunwayItem(n, side), Written); Inert(SquawkStep, ws) && Inert(LevelStep, ws)
  {
    RunwayInert();
    var w := if side.Some? then n + [Upper(side.value)] else n;
    DigitStartHarmless(w);
    HarmlessIsInert([w]);
    InertConcat(SquawkStep, ["runway"], [w]);
    InertConcat(LevelStep, ["runway"], [w]);
  }

  lemma LevelWordsInert(s: string, form: Form)
    requires Figures(s, 1, 3)
    ensures var ws := WordsOf(LevelItem(s), form); Inert(SquawkStep, ws) && Inert(RunwayStep, ws)
  {
    var number := NumberWords(s, form != Written);
    FlightInert();
    ShortKeyword("level");
    NumberInert(s, form != Written);
    assert ["flight", "level"] == ["flight"] + ["level"];
    InertConcat(SquawkStep, ["flight"], ["level"]);
    InertConcat(RunwayStep, ["flight"], ["level"]);
    InertConcat(SquawkStep, ["flight", "level"], number);
    InertConcat(RunwayStep, ["flight", "level"], number);
  }

  lemma SquawkWordsInert(s: string, form: Form)
    requires Figures(s, 4, 4)
    ensures var ws := WordsOf(SquawkItem(s), form); Inert(LevelStep, ws) && Inert(RunwayStep, ws)
  {
    SquawkInert();
    NumberInert(s, form != Written);
    InertConcat(LevelStep, ["squawk"], NumberWords(s, form != Written));
    InertConcat(RunwayStep, ["squawk"], NumberWords(s, form != Written));
  }

  lemma ItemStage(v: Vocabulary, lx: Lexis, it: Item, stage: nat, rest: seq<string>)
    requires Laws(v, lx) && VoiceLaws(lx) && TextItem(v, lx, it) && (it.Neutral? ==> !EndsIn(it.w, "runway"))
    requires 1 <= stage <= 3
    ensures Expand(StepOf(stage), WordsOf(it, StageForm(it, stage - 1)) + rest)
            == WordsOf(it, StageForm(it, stage)) + Expand(StepOf(stage), rest)
  {
    match it
    case RunwayItem(n, side) =>
      if stage < 3 {
        RunwayWordsInert(n, side);
        ExpandSkips(StepOf(stage), WordsOf(it, Written), rest);
      } else if side.Some? {
        RunwaySideExpands(n, side.value, rest);
      } else {
        RunwayPlainStays(n, rest);
      }
    case LevelItem(s) =>
      if stage == 2 {
        LevelExpands(s, rest);
      } else {
        LevelWordsInert(s, StageForm(it, stage));
        ExpandSkips(StepOf(stage), WordsOf(it, StageForm(it, stage)), rest);
      }
    case SquawkItem(s) =>
      if stage == 1 {
        SquawkExpands(s, rest);
      } else {
        SquawkWordsInert(s, Spoken);
        ExpandSkips(StepOf(stage), WordsOf(it, Spoken), rest);
      }
    case _ =>
      OtherInert(v, lx, it, StageForm(it, stage));
      OtherInert(v, lx, it, StageForm(it, stage - 1));
      ExpandSkips(StepOf(stage), WordsOf(it, Written), rest);
  }

  lemma {:induction false} Stage(v: Vocabulary, lx: Lexis, items: seq<Item>, stage: nat)
    requires Laws(v, lx) && VoiceLaws(lx) && Speakable(v, lx, items) && 1 <= stage <= 3
    ensures Expand(StepOf(stage), StageWords(items, stage - 1)) == StageWords(items, stage)
    decreases |items|
  {
    if items != [] {
      Stage(v, lx, items[1..], stage);
      ItemStage(v, lx, items[0], stage, StageWords(items[1..], stage - 1));
    }
  }

  lemma {:induction false} StagesReach(items: seq<Item>, stage: nat)
    requires ItemsOk(items) && stage <= 3
    requires forall k: nat :: 1 <= k <= 3 ==> Expand(StepOf(k), StageWords(items, k - 1)) == StageWords(items, k)
    ensures ExpandTo(stage, StageWords(items, 0)) == StageWords(items, stage)
    decreases stage
  {
    if stage > 0 {
      StagesReach(items, stage - 1);
    }
  }

  /** The voice turns the written text into the spoken one. */
  lemma VoiceSpeaksItems(v: Vocabulary, lx: Lexis, items: seq<Item>)
    requires Laws(v, lx) && VoiceLaws(lx) && Speakable(v, lx, items)
    ensures Voice(Words(items, Written)) == Utterance(items, Spoken)
  {
    forall k: nat | 1 <= k <= 3
      ensures Expand(StepOf(k), StageWords(items, k - 1)) == StageWords(items, k)
    {
      Stage(v, lx, items, k);
    }
    FirstStage(items);
    StagesReach(items, 3);
  }
}
