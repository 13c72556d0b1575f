/** Clearances in words: what the read-back theorems say of particular texts. */
module ReadbackTexts {
  import opened Options
  import opened Text
  import opened AtcTypes
  import opened DialogSpec
  import DialogRuns
  import ReadbackQueue
  import FrequencyWords
  import FrequencyNormaliser
  import FrequencyRoundTrip
  import Replace
  import opened ReadbackTokens
  import opened ReadbackItems
  import ReadbackVerdict
  import opened ReadbackSpeech
  import opened ReadbackHearing
  import opened ReadbackEnglish
  import opened ReadbackTogether
  import opened ReadbackExchange
  import opened ReadbackVerifier
  import VoiceExpansion

  // ── Neutral words ───────────────────────────────────────────────────────────

  /** No number below one hundred starts like this. */
  predicate NoLowStart(w: string) {
    |w| >= 2 && w[0] !in {'t', 'e', 'f', 's'} && (w[0] == 'n' ==> w[1] != 'i')
  }

  lemma LowStarts(i: nat)
    requires i < |LOW|
    ensures var s := LOW[i].0; |s| >= 2 && (s[0] in {'t', 'e', 'f', 's'} || (s[0] == 'n' && s[1] == 'i'))
  {}

  lemma {:induction false} NoLow(w: string, i: nat)
    requires NoLowStart(w) && i <= |LOW|
    ensures LowFrom(w, i) == Kind.Plain
    decreases |LOW| - i
  {
    if i < |LOW| {
      var s := LOW[i].0;
      LowStarts(i);
      assert |w| >= |s| ==> w[..|s|][0] == w[0] && w[..|s|][1] == w[1];
      NoLow(w, i + 1);
    }
  }

  /** A word that is neither a keyword nor built with one. */
  predicate PlainShape(w: string) {
    && NoLowStart(w) && w[0] != 'h' && w[0] != 'k' && 'p' !in w && 'k' !in w
    && (w[|w|-2] != 'f' || w[|w|-1] != 'l') && w[|w|-2] != 'h' && (w[|w|-2] != 'a' || w[|w|-1] != 'y')
    && w != "runway" && w != "level" && w != "feet" && w != "ft" && w != "and" && SideOf(w).None?
  }

  lemma NotContained(w: string, t: string, i: nat)
    requires i < |t| && t[i] !in w
    ensures !Contains(w, t)
  {
    forall k: nat | k <= |w|
      ensures !Replace.Occurs(w, t, k)
    {
      if Replace.Occurs(w, t, k) {
        Replace.SliceOf(w, k, t, i);
      }
    }
  }

  lemma EndsOtherwise(w: string, t: string, e: nat)
    requires 1 <= e <= |w| && e <= |t| && w[|w|-e] != t[|t|-e]
    ensures !VoiceExpansion.EndsIn(w, t)
  {
    assert |w| >= |t| ==> w[|w|-|t|..][|t|-e] == w[|w|-e];
  }

  lemma StartsOtherwise(w: string, t: string)
    requires w != "" && t != "" && w[0] != t[0]
    ensures !StartsWith(w, t)
  {
    assert |w| >= |t| ==> w[..|t|][0] == w[0];
  }

  /** What the kind of a word comes down to when no part of it is a keyword. */
  lemma KindComesDown(w: string)
    requires w != "runway" && w != "approach" && w != "level" && w != "feet" && w != "ft" && w != "squawk" && w != "and"
    requires !VoiceExpansion.EndsIn(w, "flight") && !VoiceExpansion.EndsIn(w, "fl") && SideOf(w).None?
    requires !StartsWith(w, "thousand") && !StartsWith(w, "hundred") && !StartsWith(w, "knot")
    requires !Contains(w, "speed") && !Contains(w, "knot")
    ensures KindOf(w) == LowFrom(w, 0)
  {}

  lemma PlainKind(w: string)
    requires PlainShape(w) && w != "approach" && w != "squawk"
    ensures KindOf(w) == Kind.Plain
  {
    EndsOtherwise(w, "flight", 2);
    EndsOtherwise(w, "fl", if w[|w|-2] != 'f' then 2 else 1);
    StartsOtherwise(w, "thousand");
    StartsOtherwise(w, "hundred");
    StartsOtherwise(w, "knot");
    NotContained(w, "speed", 1);
    NotContained(w, "knot", 0);
    KindComesDown(w);
    NoLow(w, 0);
  }

  lemma NoDecimalIn(w: string)
    requires FrequencyWords.LowerLetters(w) && (|w| < 7 || 'd' !in w)
    ensures !FrequencyRoundTrip.HasDecimal(w)
  {
    if |w| < 7 {
      ShortHasNoDecimal(w);
    } else if p: nat :| p <= |w| && FrequencyNormaliser.DecimalAt(w, p) {
      LowerAllAt(w[p..p+7], 0);
    }
  }

  /** Words of that shape are neutral. */
  lemma NeutralInEnglish(w: string)
    requires FrequencyWords.LowerLetters(w) && PlainShape(w) && (|w| < 7 || 'd' !in w)
    requires w != "approach" && w != "squawk" && Phonetic(w) < 0 && EnglishApart(w)
    ensures NeutralWord(FrequencyWords.English(), EnglishLexis(), w)
  {
    LowerStays(w);
    PlainKind(w);
    NoDecimalIn(w);
    NoNumber(w);
    assert Keyword(EnglishLexis(), w, Kind.Plain);
  }

  lemma NoNumber(w: string)
    requires FrequencyWords.LowerLetters(w) && EnglishApart(w)
    ensures !FrequencyWords.Num(FrequencyWords.English(), w) && !FrequencyWords.Sep(FrequencyWords.English(), w)
  {
    FrequencyWords.NormOfLetters(w);
    NoGroup(w);
    ApartInEnglish(w);
  }

  /** An item that can be written, and that the voice can speak. */
  predicate SpeakableItem(it: Item) {
    TextItem(FrequencyWords.English(), EnglishLexis(), it) && (it.Neutral? ==> !VoiceExpansion.EndsIn(it.w, "runway"))
  }

  lemma NeutralItem(w: string)
    requires FrequencyWords.LowerLetters(w) && PlainShape(w) && (|w| < 7 || 'd' !in w)
    requires w != "approach" && w != "squawk" && Phonetic(w) < 0 && EnglishApart(w)
    ensures SpeakableItem(Neutral(w))
  {
    NeutralInEnglish(w);
    EndsOtherwise(w, "runway", if w[|w|-2] != 'a' then 2 else 1);
  }

  lemma Maintain()
    ensures SpeakableItem(Neutral("maintain"))
  {
    NeutralItem("maintain");
  }

  lemma Contact()
    ensures SpeakableItem(Neutral("contact"))
  {
    NeutralItem("contact");
  }

  lemma With()
    ensures SpeakableItem(Neutral("with"))
  {
    NeutralItem("with");
  }

  lemma Resume()
    ensures SpeakableItem(Neutral("resume"))
  {
    NeutralItem("resume");
  }

  lemma Normal()
    ensures SpeakableItem(Neutral("normal"))
  {
    NeutralItem("normal");
  }

  lemma Verify()
    ensures SpeakableItem(Neutral("verify"))
  {
    NeutralItem("verify");
  }

  lemma Request()
    ensures SpeakableItem(Neutral("request"))
  {
    NeutralItem("request");
  }

  // ── Texts ───────────────────────────────────────────────────────────────────

  lemma JoinOfTwo(a: string, b: string)
    ensures Join([a, b]) == a + " " + b
  {
    assert [a, b][1..] == [b];
  }

  lemma JoinOfMore(a: string, ws: seq<string>)
    requires ws != []
    ensures Join([a] + ws) == a + " " + Join(ws)
  {
    assert ([a] + ws)[1..] == ws;
  }

  /** The items of "maintain flight level 210 contact 125.130 with squawk 2370". */
  const CLEARANCE: seq<Item> :=
    [Neutral("maintain"), LevelItem("210"), Neutral("contact"), FrequencyItem("125", "130"), Neutral("with"), SquawkItem("2370")]

  lemma ClearanceWords()
    requires ItemsOk(CLEARANCE)
    ensures Words(CLEARANCE, Written) == ["maintain", "flight", "level", "210", "contact", "125.130", "with", "squawk", "2370"]
  {
    var c := CLEARANCE;
    assert c[1..][1..] == c[2..] && c[2..][1..] == c[3..] && c[3..][1..] == c[4..] && c[4..][1..] == c[5..] && c[5..][1..] == [];
    assert "125" + "." + "130" == "125.130";
  }

  lemma NumberItem(it: Item)
    requires ItemOk(it) && !it.Neutral? && !it.FrequencyItem?
    ensures SpeakableItem(it)
  {}

  lemma FrequencyIsSpeakable()
    ensures SpeakableItem(FrequencyItem("125", "130"))
  {
    FrequencyRoundTrip.WrittenIsVhf();
    assert "125" + "." + "130" == "125.130";
  }

  lemma SpeakableItems(items: seq<Item>)
    requires Spaced(items) && forall it :: it in items ==> SpeakableItem(it)
    ensures VoiceExpansion.Speakable(FrequencyWords.English(), EnglishLexis(), items)
    ensures TextItems(FrequencyWords.English(), EnglishLexis(), items)
  {
    forall i | 0 <= i < |items|
      ensures SpeakableItem(items[i])
    {
      assert items[i] in items;
    }
  }

  lemma ClearanceSpaced()
    ensures Spaced(CLEARANCE)
  {
    var c := CLEARANCE;
    assert Spaced(c[5..]) && Spaced(c[4..]) && Spaced(c[3..]) && Spaced(c[2..]) && Spaced(c[1..]);
  }

  lemma ClearanceItem(i: nat)
    requires i < |CLEARANCE|
    ensures SpeakableItem(CLEARANCE[i])
  {
    if i == 0 {
      Maintain();
    } else if i == 1 {
      NumberItem(LevelItem("210"));
    } else if i == 2 {
      Contact();
    } else if i == 3 {
      FrequencyIsSpeakable();
    } else if i == 4 {
      With();
    } else {
      NumberItem(SquawkItem("2370"));
    }
  }

  /** There are clearances to which all this applies. */
  lemma AClearanceIsSpeakable()
    ensures VoiceExpansion.Speakable(FrequencyWords.English(), EnglishLexis(), CLEARANCE)
    ensures Words(CLEARANCE, Written) == ["maintain", "flight", "level", "210", "contact", "125.130", "with", "squawk", "2370"]
  {
    var items := CLEARANCE;
    forall it | it in items
      ensures SpeakableItem(it)
    {
      var i :| 0 <= i < |items| && items[i] == it;
      ClearanceItem(i);
    }
    ClearanceSpaced();
    SpeakableItems(items);
    ClearanceWords();
  }

  // ── A code that is taken for a speed ────────────────────────────────────────

  const RESUME: seq<Item> := [Neutral("resume"), Neutral("normal"), SpeedMention, SquawkItem("1234")]

  lemma ResumeItem(i: nat)
    requires i < |RESUME|
    ensures SpeakableItem(RESUME[i])
  {
    if i == 0 {
      Resume();
    } else if i == 1 {
      Normal();
    } else if i == 2 {
      NumberItem(SpeedMention);
    } else {
      NumberItem(SquawkItem("1234"));
    }
  }

  lemma ResumeTail()
    ensures RESUME[1..] == [Neutral("normal"), SpeedMention, SquawkItem("1234")]
    ensures RESUME[1..][1..] == [SpeedMention, SquawkItem("1234")] && RESUME[1..][1..][1..] == [SquawkItem("1234")]
  {}

  lemma ResumeWords()
    requires ItemsOk(RESUME)
    ensures Words(RESUME, Written) == ["resume", "normal", "speed", "squawk", "1234"]
  {
    ResumeTail();
    assert [SquawkItem("1234")][1..] == [];
  }

  lemma ResumeText()
    ensures Join(["resume", "normal", "speed", "squawk", "1234"]) == "resume normal speed squawk 1234"
  {
    JoinOfTwo("squawk", "1234");
    JoinOfMore("speed", ["squawk", "1234"]);
    JoinOfMore("normal", ["speed", "squawk", "1234"]);
    JoinOfMore("resume", ["normal", "speed", "squawk", "1234"]);
    assert ["speed"] + ["squawk", "1234"] == ["speed", "squawk", "1234"];
    assert ["normal"] + ["speed", "squawk", "1234"] == ["normal", "speed", "squawk", "1234"];
    assert ["resume"] + ["normal", "speed", "squawk", "1234"] == ["resume", "normal", "speed", "squawk", "1234"];
  }

  lemma ResumeReadsOtherwise()
    ensures !SpeedReadsAlike(RESUME) && Spaced(RESUME)
  {
    ResumeTail();
    var last := [SquawkItem("1234")];
    assert NextFigures(last, Written) == "1234" && NextItem(last) == Some(SquawkItem("1234"));
    assert "1234"[..3][0] == '1';
    assert !SpelledAlike(SquawkItem("1234"));
    assert !SpeedReadsAlike([SpeedMention] + last) by { assert ([SpeedMention] + last)[1..] == last; }
    assert RESUME[1..][1..] == [SpeedMention] + last;
    assert Spaced(last) && Spaced(RESUME[1..][1..]) && Spaced(RESUME[1..]);
  }

  /** "resume normal speed squawk 1234": the digits of the code are taken for a speed, and spoken one by one they are
      another speed, so a perfect read-back is accepted, but is not credited with every field. */
  lemma SquawkTakenForSpeed()
    ensures VoiceExpansion.Speakable(FrequencyWords.English(), EnglishLexis(), RESUME)
    ensures var v, lx := FrequencyWords.English(), EnglishLexis();
            var written := Join(Words(RESUME, Written));
            var raw := VoiceExpansion.Voice(Words(RESUME, Written));
            && written == "resume normal speed squawk 1234"
            && Check(v, lx, written, raw) == []
            && MatchedFields(v, lx, written, raw) != FieldsPresent(v, lx, written)
  {
    var items := RESUME;
    forall it | it in items
      ensures SpeakableItem(it)
    {
      var i :| 0 <= i < |items| && items[i] == it;
      ResumeItem(i);
    }
    ResumeReadsOtherwise();
    SpeakableItems(items);
    VoiceIsHeard(items);
    ResumeWords();
    ResumeText();
  }

  // ── A wrong level that is accepted ──────────────────────────────────────────

  const NINETY: seq<Item> := [Neutral("maintain"), LevelItem("90")]
  const EIGHTY: seq<Item> := [Neutral("maintain"), LevelItem("80"), Neutral("with"), SquawkItem("1906")]

  lemma EightyItem(i: nat)
    requires i < |EIGHTY|
    ensures SpeakableItem(EIGHTY[i])
  {
    if i == 0 {
      Maintain();
    } else if i == 1 {
      NumberItem(LevelItem("80"));
    } else if i == 2 {
      With();
    } else {
      NumberItem(SquawkItem("1906"));
    }
  }

  lemma NinetyItem(i: nat)
    requires i < |NINETY|
    ensures SpeakableItem(NINETY[i])
  {
    if i == 0 {
      Maintain();
    } else {
      NumberItem(LevelItem("90"));
    }
  }

  lemma EightySpeakable()
    ensures TextItems(FrequencyWords.English(), EnglishLexis(), EIGHTY) && Spaced(EIGHTY)
  {
    var items := EIGHTY;
    forall it | it in items
      ensures SpeakableItem(it)
    {
      var i :| 0 <= i < |items| && items[i] == it;
      EightyItem(i);
    }
    assert Spaced(items[3..]) && Spaced(items[2..]) && Spaced(items[1..]);
    SpeakableItems(items);
  }

  lemma NinetySpeakable()
    ensures TextItems(FrequencyWords.English(), EnglishLexis(), NINETY) && Spaced(NINETY)
  {
    var items := NINETY;
    forall it | it in items
      ensures SpeakableItem(it)
    {
      var i :| 0 <= i < |items| && items[i] == it;
      NinetyItem(i);
    }
    SpeakableItems(items);
  }

  lemma NothingWrong(f: Field, form: Form)
    ensures !Wrong(NINETY, EIGHTY, f, form)
  {
    var last := [LevelItem("90")];
    assert NINETY == [Neutral("maintain")] + last && NINETY[1..] == last && last[1..] == [];
    ReadbackVerdict.NinetyRead();
    ReadbackVerdict.NinetySaid(EIGHTY, 3, "1906", 1);
    assert FirstLevel(NINETY) == 90 && FirstRunway(NINETY) == None && FirstFrequency(NINETY) == None;
    assert FirstSquawk(NINETY) == None && FirstSpeed(NINETY, Written) == None;
  }

  /** "maintain flight level 80 with squawk 1906", in any form, is accepted for "maintain flight level 90". */
  lemma Level80IsAcceptedFor90(form: Form)
    ensures TextItems(FrequencyWords.English(), EnglishLexis(), NINETY)
    ensures TextItems(FrequencyWords.English(), EnglishLexis(), EIGHTY)
    ensures Check(FrequencyWords.English(), EnglishLexis(), Utterance(NINETY, Written), Utterance(EIGHTY, form)) == []
  {
    var v, lx := FrequencyWords.English(), EnglishLexis();
    EnglishLaws();
    NinetySpeakable();
    EightySpeakable();
    WrongItemIsReported(v, lx, NINETY, EIGHTY, form);
    var faults := Check(v, lx, Utterance(NINETY, Written), Utterance(EIGHTY, form));
    forall f
      ensures !Reported(faults, f)
    {
      NothingWrong(f, form);
    }
    FaultsAreReported(faults);
  }

  lemma FaultsAreReported(faults: seq<Fault>)
    ensures faults == [] || Reported(faults, faults[0].field)
  {}
}
