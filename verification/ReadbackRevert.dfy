/** The revert guard and a read-back: a clearance that was read back is owed again when speech fails afterwards. */
module ReadbackRevert {
  import opened Options
  import opened Text
  import opened AtcTypes
  import opened DialogSpec
  import DialogExchange
  import DialogRuns
  import ReadbackQueue
  import FrequencyWords
  import opened ReadbackTokens
  import opened ReadbackItems
  import opened ReadbackSpeech
  import opened ReadbackHearing
  import opened ReadbackEnglish
  import opened ReadbackTogether
  import opened ReadbackExchange
  import opened ReadbackVerifier
  import opened ReadbackTexts

  // ── A reply that keeps what is owed ─────────────────────────────────────────

  /** A turn that is no read-back, and a reply that neither clears anything nor moves the dialog. */
  predicate KeepsTalking(e: Env, d: Dialog, s: Step) {
    && s.DoProcess? && s.msg.intent != READBACK && !s.resp.requiresReadback && s.resp.text != ""
    && s.resp.next == d.r.core.state && s.resp.next != IDLE && s.resp.next != EN_ROUTE
    && (s.msg.raw == "" || e.v.check(d.r.owed.text, s.msg.raw) != [])
  }

  lemma TurnKeepsOwed(e: Env, d: Dialog, s: Step)
    requires d.r.owed.flag && KeepsTalking(e, d, s)
    ensures var t := Process(e, d, s.msg, s.ctx, s.resp, s.now).0;
            && t.r.owed == d.r.owed.(lastReminder := s.now, reminders := 0)
            && t.failText == d.failText && t.fails == d.fails
  {
    var r := DialogSpec.Heard(d.r, s.msg, s.ctx, s.now);
    DialogRuns.ProcessOther(e, d, s.msg, s.ctx, s.resp, s.now);
    DialogRuns.FinishSteady(e, Tracked(e.v, r, s.msg, s.resp), s.msg, s.ctx, s.resp);
    assert r.owed == d.r.owed && r.core.state == d.r.core.state && r.lastNow == s.now;
    assert SilentAccept(e.v, r, s.msg) == r;
  }

  // ── Read back, and owed again ───────────────────────────────────────────────

  lemma RestoredAfterTwo(e: Env, w: World, turn: Step, later: Step)
    requires turn.DoProcess? && later.DoProcess?
    ensures var sampled := StepWorld(e, StepWorld(e, w, DoCapture), turn);
            var heard := StepWorld(e, sampled, later);
            heard.d.r.gen == sampled.d.r.gen ==>
              StepWorld(e, heard, DoRestore(|w.snaps|, sampled.d.r.gen)).d.r == w.d.r.(gen := sampled.d.r.gen + 1)
  {
    var captured := StepWorld(e, w, DoCapture);
    var sampled := StepWorld(e, captured, turn);
    DialogRuns.StepKeepsSnapshots(e, captured, turn);
    DialogRuns.StepKeepsSnapshots(e, sampled, later);
  }

  lemma AskedTurn(e: Env, w: World, later: Step)
    requires later.DoProcess? && later.msg.intent == READBACK && AsksAgain(e.v, w.d, later.msg.raw)
    ensures var heard := StepWorld(e, w, later);
            heard.d.r.gen == w.d.r.gen && heard.d.r.owed == Credited(e.v, w.d.r.owed, later.msg.raw)
  {
    DialogRuns.ProcessOwed(e, w.d, later.msg, later.ctx, later.resp, later.now);
  }

  lemma SampledTurn(e: Env, w: World, turn: Step)
    requires w.d.r.owed.flag && KeepsTalking(e, w.d, turn)
    ensures var sampled := StepWorld(e, StepWorld(e, w, DoCapture), turn);
            && sampled.d.r.owed == w.d.r.owed.(lastReminder := turn.now, reminders := 0)
            && sampled.d.failText == w.d.failText && sampled.d.fails == w.d.fails
  {
    TurnKeepsOwed(e, w.d, turn);
  }

  /**
   * A guard captures; the guarded turn goes by and the generation is sampled; the pilot reads one of the
   * clearances back and is asked for the rest; then speech fails and the guard restores. The clearance that
   * was read back left the queue, and is in it again.
   */
  lemma CreditedReadbackCanBeUndone(e: Env, w: World, v: Vocabulary, lx: Lexis, cs: seq<seq<Item>>, k: nat, form: Form,
                                    turn: Step, later: Step)
    requires e.v == TheVerifier(v, lx) && Laws(v, lx) && Sayable(v, lx, cs) && k < |cs| && FieldsOf(cs[k]) != {}
    requires Owed(w.d.r.owed, Texts(cs)) && w.d.r.owed.ok == {} && ReadbackQueue.QueueOk(e.v, Texts(cs))
    requires KeepsTalking(e, w.d, turn)
    requires later.DoProcess? && later.msg.intent == READBACK && later.msg.raw == Utterance(cs[k], form)
    requires AsksAgain(e.v, StepWorld(e, StepWorld(e, w, DoCapture), turn).d, later.msg.raw)
    ensures var sampled := StepWorld(e, StepWorld(e, w, DoCapture), turn);
            var heard := StepWorld(e, sampled, later);
            var restored := StepWorld(e, heard, DoRestore(|w.snaps|, sampled.d.r.gen));
            && heard.d.r.owed.pending == Texts(cs)[..k] + Texts(cs)[k+1..]
            && restored.d.r == w.d.r.(gen := sampled.d.r.gen + 1)
            && restored.d.r.owed.pending == Texts(cs)
  {
    var sampled := StepWorld(e, StepWorld(e, w, DoCapture), turn);
    SampledTurn(e, w, turn);
    AskedTurn(e, sampled, later);
    RestoredAfterTwo(e, w, turn, later);
    OneReadBackRetiresThatOne(v, lx, cs, k, form, sampled.d.r.owed);
  }

  // ── With the words of the source ────────────────────────────────────────────

  const ALTITUDE: seq<Item> := [Neutral("maintain"), FeetItem("5000")]
  const CODE: seq<Item> := [Neutral("verify"), SquawkItem("1234")]
  const BOTH: seq<seq<Item>> := [ALTITUDE, CODE]
  const A := "maintain 5000 feet"
  const B := "verify squawk 1234"

  lemma AltitudeItem(i: nat)
    requires i < |ALTITUDE|
    ensures SpeakableItem(ALTITUDE[i])
  {
    if i == 0 {
      Maintain();
    } else {
      NumberItem(FeetItem("5000"));
    }
  }

  lemma CodeItem(i: nat)
    requires i < |CODE|
    ensures SpeakableItem(CODE[i])
  {
    if i == 0 {
      Verify();
    } else {
      NumberItem(SquawkItem("1234"));
    }
  }

  lemma AltitudeSpeakable()
    ensures TextItems(FrequencyWords.English(), EnglishLexis(), ALTITUDE) && Spaced(ALTITUDE)
  {
    var items := ALTITUDE;
    forall it | it in items
      ensures SpeakableItem(it)
    {
      var i :| 0 <= i < |items| && items[i] == it;
      AltitudeItem(i);
    }
    SpeakableItems(items);
  }

  lemma CodeSpeakable()
    ensures TextItems(FrequencyWords.English(), EnglishLexis(), CODE) && Spaced(CODE)
  {
    var items := CODE;
    forall it | it in items
      ensures SpeakableItem(it)
    {
      var i :| 0 <= i < |items| && items[i] == it;
      CodeItem(i);
    }
    SpeakableItems(items);
  }

  lemma FiveThousand()
    ensures Value("5000") == 5000
  {
    assert "5000"[..3] == "500" && "500"[..2] == "50" && "50"[..1] == "5" && "5"[..0] == "";
    assert NumberOf("5") == 5 && NumberOf("50") == 50 && NumberOf("500") == 500 && NumberOf("5000") == 5000;
  }

  lemma FieldsOfBoth()
    ensures FieldsOf(ALTITUDE) == {Altitude} && FieldsOf(CODE) == {Squawk} && Definite(ALTITUDE) && Definite(CODE)
  {
    FiveThousand();
    var feet, code := [FeetItem("5000")], [SquawkItem("1234")];
    assert ALTITUDE[1..] == feet && CODE[1..] == code && feet[1..] == [] && code[1..] == [];
    assert FirstFeet(feet) == 5000 && FirstSquawk(code) == Some("1234");
  }

  lemma FlatBoth()
    ensures Flat(BOTH) == ALTITUDE + CODE && Spaced(Flat(BOTH))
  {
    FlatSnoc([], ALTITUDE);
    FlatSnoc([ALTITUDE], CODE);
    assert [] + [ALTITUDE] == [ALTITUDE] && [ALTITUDE] + [CODE] == BOTH;
    var s := ALTITUDE + CODE;
    assert s == [Neutral("maintain"), FeetItem("5000"), Neutral("verify"), SquawkItem("1234")];
    assert Spaced(s[3..]) && Spaced(s[2..]) && Spaced(s[1..]);
  }

  lemma BothSayable()
    ensures Sayable(FrequencyWords.English(), EnglishLexis(), BOTH)
  {
    forall i | 0 <= i < |BOTH|
      ensures TextItems(FrequencyWords.English(), EnglishLexis(), BOTH[i]) && Definite(BOTH[i])
    {
      FieldsOfBoth();
      if i == 0 {
        AltitudeSpeakable();
      } else {
        CodeSpeakable();
      }
    }
    FlatBoth();
  }

  lemma AltitudeText()
    requires ItemsOk(ALTITUDE)
    ensures Utterance(ALTITUDE, Written) == "maintain 5000 feet"
  {
    var feet := [FeetItem("5000")];
    assert ALTITUDE[1..] == feet && feet[1..] == [];
    JoinOfTwo("5000", "feet");
    JoinOfMore("maintain", ["5000", "feet"]);
    assert ["maintain"] + ["5000", "feet"] == ["maintain", "5000", "feet"];
    assert Words(ALTITUDE, Written) == ["maintain", "5000", "feet"];
  }

  lemma CodeText()
    requires ItemsOk(CODE)
    ensures Utterance(CODE, Written) == "verify squawk 1234"
  {
    var code := [SquawkItem("1234")];
    assert CODE[1..] == code && code[1..] == [];
    JoinOfTwo("squawk", "1234");
    JoinOfMore("verify", ["squawk", "1234"]);
    assert ["verify"] + ["squawk", "1234"] == ["verify", "squawk", "1234"];
    assert Words(CODE, Written) == ["verify", "squawk", "1234"];
  }

  lemma TheTexts()
    requires ItemsOk(ALTITUDE) && ItemsOk(CODE)
    ensures Utterance(ALTITUDE, Written) == A && Utterance(CODE, Written) == B && Texts(BOTH) == [A, B]
  {
    AltitudeText();
    CodeText();
    assert forall i :: 0 <= i < 2 ==> Texts(BOTH)[i] == Utterance(BOTH[i], Written);
  }

  lemma MissingIsWrong(cl: seq<Item>, rb: seq<Item>)
    requires FirstSquawk(cl).Some? && FirstSquawk(rb).None?
    ensures Wrong(cl, rb, Squawk, Written)
  {}

  /** Silence about the code is a fault in the text of both. */
  lemma CodeIsMissing(rb: seq<Item>, cl: seq<Item>)
    requires ItemsOk(cl) && Spaced(cl) && ItemsOk(rb) && Spaced(rb) && Wrong(cl, rb, Squawk, Written)
    ensures Reported(Faults(ReadbackItems.Heard(cl, Written), ReadbackItems.Heard(rb, Written)), Squawk)
  {
    WrongIsFault(cl, rb, Squawk, Written);
  }

  lemma BothHaveTheCode()
    ensures FirstSquawk(Flat(BOTH)).Some? && FirstSquawk(CODE).Some? && FirstSquawk(ALTITUDE).None?
    ensures FirstSquawk([Neutral("request")]).None?
  {
    var feet, code := [FeetItem("5000")], [SquawkItem("1234")];
    assert ALTITUDE[1..] == feet && CODE[1..] == code && feet[1..] == [];
    assert FirstSquawk(feet) == None && FirstSquawk(code) == Some("1234");
    FlatBoth();
    FieldsOfBoth();
    FirstCodes(ALTITUDE, CODE);
  }

  lemma RequestItems()
    ensures TextItems(FrequencyWords.English(), EnglishLexis(), [Neutral("request")]) && Spaced([Neutral("request")])
    ensures Utterance([Neutral("request")], Written) == "request"
  {
    Request();
    assert [Neutral("request")][1..] == [];
    assert Words([Neutral("request")], Written) == ["request"];
  }

  /** "request" does not settle the two clearances. */
  lemma RequestSettlesNothing()
    requires forall i :: 0 <= i < |BOTH| ==> ItemsOk(BOTH[i])
    ensures TheVerifier(FrequencyWords.English(), EnglishLexis()).check(ReadbackQueue.Join(Texts(BOTH)), "request") != []
  {
    var v, lx := FrequencyWords.English(), EnglishLexis();
    var cl := ReadbackQueue.Join(Texts(BOTH));
    EnglishLaws();
    BothSayable();
    FlatItems(v, lx, BOTH);
    JoinedHeard(v, lx, BOTH);
    RequestItems();
    UtteranceHeard(v, lx, [Neutral("request")], Written);
    BothHaveTheCode();
    FieldsOfBoth();
    JoinedNotSilent(v, lx, BOTH, 0);
    MissingIsWrong(Flat(BOTH), [Neutral("request")]);
    CodeIsMissing([Neutral("request")], Flat(BOTH));
    MismatchFields(v, lx, cl, "request", Squawk);
  }

  lemma AltitudeMatched()
    requires forall i :: 0 <= i < |BOTH| ==> ItemsOk(BOTH[i])
    ensures var text := ReadbackQueue.Join(Texts(BOTH));
            && text != ""
            && MatchedFields(FrequencyWords.English(), EnglishLexis(), text, Utterance(ALTITUDE, Written)) == {Altitude}
  {
    var v, lx := FrequencyWords.English(), EnglishLexis();
    EnglishLaws();
    BothSayable();
    FlatItems(v, lx, BOTH);
    FieldsOfBoth();
    BothIndependent();
    MatchedOfOne(v, lx, BOTH, 0, Written);
    JoinedNotSilent(v, lx, BOTH, 0);
  }

  lemma BothIndependent()
    requires forall i :: 0 <= i < |BOTH| ==> ItemsOk(BOTH[i])
    ensures Independent(BOTH)
  {
    FieldsOfBoth();
    assert forall f :: f in SlotsOf(ALTITUDE) <==> f == Altitude;
    assert forall f :: f in SlotsOf(CODE) <==> f == Squawk;
  }

  lemma CodeIsAskedFor()
    requires ItemsOk(ALTITUDE) && ItemsOk(CODE)
    ensures exists m :: m in TheVerifier(FrequencyWords.English(), EnglishLexis())
                              .check(Utterance(CODE, Written), Utterance(ALTITUDE, Written)) && m.field == Squawk
  {
    var v, lx := FrequencyWords.English(), EnglishLexis();
    EnglishLaws();
    AltitudeSpeakable();
    CodeSpeakable();
    BothHaveTheCode();
    WrongItemIsReported(v, lx, CODE, ALTITUDE, Written);
    assert Wrong(CODE, ALTITUDE, Squawk, Written);
    MismatchFields(v, lx, Utterance(CODE, Written), Utterance(ALTITUDE, Written), Squawk);
  }

  // ── What the verifier says of these texts ───────────────────────────────────

  /** What the run depends on: two fields, one of them matched, and nothing settled by another word. */
  ghost predicate HalfMatched(verifier: Verifier, a: string, b: string, other: string) {
    && verifier.fields(a) == {Altitude} && verifier.fields(b) == {Squawk}
    && verifier.matched(a + "  " + b, a) == {Altitude}
    && (exists m :: m in verifier.check(b, a) && m.field == Squawk)
    && verifier.check(a + "  " + b, other) != []
  }

  lemma JoinOfBoth(a: string, b: string)
    requires a != ""
    ensures ReadbackQueue.Join([a, b]) == a + "  " + b
  {
    JoinOne(a);
    assert [a, b][..1] == [a];
  }

  lemma FieldsOfAB()
    ensures FieldsPresent(FrequencyWords.English(), EnglishLexis(), A) == {Altitude}
    ensures FieldsPresent(FrequencyWords.English(), EnglishLexis(), B) == {Squawk}
  {
    EnglishLaws();
    AltitudeSpeakable();
    CodeSpeakable();
    FieldsOfBoth();
    TheTexts();
    FieldsOfText(FrequencyWords.English(), EnglishLexis(), ALTITUDE);
    FieldsOfText(FrequencyWords.English(), EnglishLexis(), CODE);
  }

  lemma MatchedInBoth()
    ensures MatchedFields(FrequencyWords.English(), EnglishLexis(), A + "  " + B, A) == {Altitude}
  {
    BothSayable();
    TheTexts();
    AltitudeMatched();
    JoinOfBoth(A, B);
  }

  lemma RequestLeavesBoth()
    ensures TheVerifier(FrequencyWords.English(), EnglishLexis()).check(A + "  " + B, "request") != []
  {
    BothSayable();
    TheTexts();
    RequestSettlesNothing();
    JoinOfBoth(A, B);
  }

  lemma CodeIsWrong()
    ensures exists m :: m in TheVerifier(FrequencyWords.English(), EnglishLexis()).check(B, A) && m.field == Squawk
  {
    BothSayable();
    TheTexts();
    CodeIsAskedFor();
  }

  lemma TheVerifierHalfMatches()
    ensures HalfMatched(TheVerifier(FrequencyWords.English(), EnglishLexis()), A, B, "request")
  {
    FieldsOfAB();
    MatchedInBoth();
    RequestLeavesBoth();
    CodeIsWrong();
  }

  // ── The run ─────────────────────────────────────────────────────────────────

  function Turn(raw: string): Step {
    DoProcess(Message(OTHER("request"), raw, "", ""), Context(false, false, ""),
              Response("stand by", TAXI_CLEARED, false), 1.0)
  }

  function ReadsBack(raw: string): Step {
    DoProcess(Message(READBACK, raw, "", ""), Context(false, false, ""), Response("", TAXI_CLEARED, false), 2.0)
  }

  /** Two clearances are armed while the dialog is in TAXI_CLEARED. */
  function Armed(e: Env, a: string, b: string): World {
    StepWorld(e, StepWorld(e, StepWorld(e, START, DoSetState(TAXI_CLEARED)), DoArm(a)), DoArm(b))
  }

  lemma OneThenOther(verifier: Verifier, a: string, b: string)
    requires verifier.fields(a) == {Altitude} && verifier.fields(b) == {Squawk}
    ensures ReadbackQueue.Merge(verifier, [], a) == [a] && ReadbackQueue.Merge(verifier, [a], b) == [a, b]
  {
    assert forall f :: f in ReadbackQueue.Slots(verifier, a) <==> f == Altitude;
    assert forall f :: f in ReadbackQueue.Slots(verifier, b) <==> f == Squawk;
    assert !ReadbackQueue.Overlap(verifier, a, b);
    assert [a][1..] == [] && ReadbackQueue.WithoutOverlap(verifier, [], b) == [];
  }

  lemma BothArmed(e: Env, a: string, b: string)
    requires a != "" && e.v.fields(a) == {Altitude} && e.v.fields(b) == {Squawk}
    ensures var d := Armed(e, a, b).d;
            && d.r.owed.flag && d.r.owed.pending == [a, b] && d.r.owed.text == a + "  " + b && d.r.owed.ok == {}
            && d.r.core.state == TAXI_CLEARED && d.fails == 0
  {
    OneThenOther(e.v, a, b);
    JoinOfBoth(a, b);
  }

  lemma SecondIsLeft(verifier: Verifier, a: string, b: string)
    requires verifier.fields(a) == {Altitude} && verifier.fields(b) == {Squawk}
    ensures ReadbackQueue.Unsettled(verifier, [a, b], {Altitude}) == [b]
  {
    UnsettledConcat(verifier, [a], [b], {Altitude});
    OneUnsettled(verifier, a, {Altitude});
    OneUnsettled(verifier, b, {Altitude});
    assert [a] + [b] == [a, b] && Squawk !in {Altitude};
  }

  /** Who reads back the altitude alone is asked for the code. */
  lemma AltitudeAlone(verifier: Verifier, d: Dialog, a: string, b: string, other: string)
    requires a != "" && HalfMatched(verifier, a, b, other)
    requires d.r.owed.flag && d.r.owed.pending == [a, b] && d.r.owed.text == a + "  " + b && d.r.owed.ok == {} && d.fails == 0
    ensures AsksAgain(verifier, d, a) && Credited(verifier, d.r.owed, a).pending == [b]
  {
    assert d.r.owed.ok + verifier.matched(d.r.owed.text, a) == {Altitude};
    SecondIsLeft(verifier, a, b);
    JoinOne(b);
    OutstandingExactly(verifier.check(b, a), {Altitude});
  }

  lemma HalfReadBack(e: Env, a: string, b: string, other: string)
    requires a != "" && HalfMatched(e.v, a, b, other)
    ensures var w := Armed(e, a, b);
            var sampled := StepWorld(e, StepWorld(e, w, DoCapture), Turn(other));
            var heard := StepWorld(e, sampled, ReadsBack(a));
            var restored := StepWorld(e, heard, DoRestore(|w.snaps|, sampled.d.r.gen));
            && w.d.r.owed.pending == [a, b] && heard.d.r.owed.pending == [b] && restored.d.r.owed.pending == [a, b]
  {
    var w := Armed(e, a, b);
    var sampled := StepWorld(e, StepWorld(e, w, DoCapture), Turn(other));
    BothArmed(e, a, b);
    SampledTurn(e, w, Turn(other));
    AltitudeAlone(e.v, sampled.d, a, b, other);
    AskedTurn(e, sampled, ReadsBack(a));
    RestoredAfterTwo(e, w, Turn(other), ReadsBack(a));
  }

  /** With the verifier and the words of the source: "maintain 5000 feet" is read back while "verify squawk 1234" is
      still owed, and both are owed after the revert. */
  lemma AltitudeIsOwedAgain(e: Env)
    requires e.v == TheVerifier(FrequencyWords.English(), EnglishLexis())
    ensures var w := Armed(e, A, B);
            var sampled := StepWorld(e, StepWorld(e, w, DoCapture), Turn("request"));
            var heard := StepWorld(e, sampled, ReadsBack(A));
            var restored := StepWorld(e, heard, DoRestore(|w.snaps|, sampled.d.r.gen));
            && w.d.r.owed.pending == [A, B] && heard.d.r.owed.pending == [B] && restored.d.r.owed.pending == [A, B]
  {
    TheVerifierHalfMatches();
    HalfReadBack(e, A, B, "request");
  }
}
