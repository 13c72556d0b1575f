/** The verifier as the dialog uses it: `check`, `matched_fields`, `fields_present`, and the words of a correction. */
module ReadbackVerifier {
  import opened Options
  import opened Text
  import opened AtcTypes
  import FrequencyWords
  import FrequencyNormaliser
  import opened ReadbackTokens
  import opened ReadbackItems
  import opened ReadbackVerdict
  import opened ReadbackSpeech
  import opened ReadbackHearing
  import opened ReadbackEnglish
  import VoiceExpansion
  import opened DialogSpec
  import ReadbackQueue

  // ── The loops ───────────────────────────────────────────────────────────────

  /** `collapse_compound_hundreds`: search, append what is before the match and the sum, go on after the match. */
  method CollapseCompoundHundreds(ts: seq<Token>) returns (out: seq<Token>)
    ensures out == Compounds(ts)
  {
    out := [];
    var i := 0;
    while i < |ts|
      invariant 0 <= i <= |ts|
      invariant out + Compounds(ts[i..]) == Compounds(ts)
    {
      CompoundsAt(ts, i, out);
      if i + 1 < |ts| && ts[i].Digits? && ts[i+1].Digits? && Compound(ts[i].s, ts[i+1].s).Some? {
        out, i := out + [Digits(Compound(ts[i].s, ts[i+1].s).value)], i + 2;
      } else if i + 1 < |ts| && ts[i].Dotted? && ts[i+1].Digits? && Compound(ts[i].f, ts[i+1].s).Some? {
        out, i := out + [Dotted(ts[i].w, Compound(ts[i].f, ts[i+1].s).value)], i + 2;
      } else {
        out, i := out + [ts[i]], i + 1;
      }
    }
  }

  lemma CompoundsAt(ts: seq<Token>, i: nat, out: seq<Token>)
    requires i < |ts|
    ensures var t := ts[i..];
            && (|t| < 2 ==> ts[i+1..] == [])
            && t[0] == ts[i] && t[1..] == ts[i+1..] && (|t| >= 2 ==> t[1] == ts[i+1] && t[2..] == ts[i+2..])
            && (forall x, y: seq<Token> :: out + ([x] + y) == (out + [x]) + y)
  {}

  method CheckRunway(out: seq<Fault>, cl: seq<Token>, rb: seq<Token>) returns (more: seq<Fault>)
    ensures more == out + RunwayFaults(cl, rb)
  {
    more := out;
    var expected := ExtractDesignator(cl);
    if expected.Some? {
      var stated := ExtractDesignator(rb);
      if stated != expected {
        more := more + [Fault(Runway, stated.Some?)];
      }
    }
  }

  method CheckLevel(out: seq<Fault>, cl: seq<Token>, rb: seq<Token>) returns (more: seq<Fault>)
    ensures more == out + LevelFaults(cl, rb)
  {
    more := out;
    var expected := ExtractLevel(cl);
    if expected > 0 {
      var stated := ExtractLevel(rb);
      if (stated <= 0 || stated != expected) && !ReadbackContains(rb, expected) {
        more := more + [Fault(FlightLevel, stated > 0)];
      }
    }
  }

  method CheckFeet(out: seq<Fault>, cl: seq<Token>, rb: seq<Token>) returns (more: seq<Fault>)
    ensures more == out + FeetFaults(cl, rb)
  {
    more := out;
    if ExtractLevel(cl) == 0 {
      var expected := ExtractFeet(cl);
      if expected > 0 {
        var stated := ExtractFeet(rb);
        if (stated <= 0 || !Near(stated, expected)) && !ReadbackContains(rb, expected) {
          more := more + [Fault(Altitude, stated > 0)];
        }
      }
    }
  }

  method CheckFrequency(out: seq<Fault>, cl: seq<Token>, rb: seq<Token>) returns (more: seq<Fault>)
    ensures more == out + FrequencyFaults(cl, rb)
  {
    more := out;
    var expected := ExtractFrequency(cl);
    if expected.Some? {
      var stated := ExtractFrequency(rb);
      if stated.None? || stated != expected {
        more := more + [Fault(Frequency, stated.Some?)];
      }
    }
  }

  method CheckSquawk(out: seq<Fault>, cl: seq<Token>, rb: seq<Token>) returns (more: seq<Fault>)
    ensures more == out + SquawkFaults(cl, rb)
  {
    more := out;
    var expected := ExtractSquawk(cl);
    if expected.Some? {
      var stated := ExtractSquawk(rb);
      if stated.None? || stated != expected {
        more := more + [Fault(Squawk, stated.Some?)];
      }
    }
  }

  method CheckSpeed(out: seq<Fault>, cl: seq<Token>, rb: seq<Token>) returns (more: seq<Fault>)
    ensures more == out + SpeedFaults(cl, rb)
  {
    more := out;
    var expected := ExtractSpeed(cl);
    if HasSpeed(expected) {
      var stated := ExtractSpeed(rb);
      if (!HasSpeed(stated) || stated != expected) && !ReadbackContains(rb, expected.value) {
        more := more + [Fault(Speed, HasSpeed(stated))];
      }
    }
  }

  method CheckTokens(cl: seq<Token>, rb: seq<Token>) returns (out: seq<Fault>)
    ensures out == Faults(cl, rb)
  {
    out := CheckRunway([], cl, rb);
    out := CheckLevel(out, cl, rb);
    out := CheckFeet(out, cl, rb);
    out := CheckFrequency(out, cl, rb);
    out := CheckSquawk(out, cl, rb);
    out := CheckSpeed(out, cl, rb);
  }

  /** `check`, field by field in the order of the source. */
  method CheckReadback(v: Vocabulary, lx: Lexis, clearance: string, readback: string) returns (out: seq<Fault>)
    ensures out == Check(v, lx, clearance, readback)
  {
    if clearance == "" || readback == "" {
      return [];
    }
    out := CheckTokens(VerifierTokens(v, lx, clearance), VerifierTokens(v, lx, readback));
  }

  // ── Corrections ─────────────────────────────────────────────────────────────

  function Icao(c: char): string {
    if c == '9' then "niner" else if IsDigit(c) then FrequencyWords.DigitWord(DigitValue(c)) else ""
  }

  function IcaoDigits(s: string): string {
    if s == "" then "" else Icao(s[0]) + (if |s| == 1 then "" else " ") + IcaoDigits(s[1..])
  }

  function TwoDigits(n: nat): string {
    if n < 10 then "0" + Numeral(n) else Numeral(n)
  }

  function SpokenSide(side: Option<char>): string {
    match side
    case Some('l') => " left" case Some('r') => " right" case Some('c') => " center"
    case _ => ""
  }

  /** The correct version of a field. */
  function Expected(f: Field, cl: seq<Token>, asMaximum: bool): string {
    match f
    case Runway =>
      var d := ExtractDesignator(cl);
      if d.None? then "" else "runway " + IcaoDigits(TwoDigits(d.value.number)) + SpokenSide(d.value.side)
    case FlightLevel => "flight level " + IcaoDigits(Numeral(ExtractLevel(cl)))
    case Altitude => Numeral(ExtractFeet(cl)) + " feet"
    case Frequency => if ExtractFrequency(cl).Some? then ExtractFrequency(cl).value else ""
    case Squawk => if ExtractSquawk(cl).Some? then "squawk " + ExtractSquawk(cl).value else ""
    case Speed =>
      var n := Numeral(Else(ExtractSpeed(cl), 0));
      if asMaximum then n + " knots or less" else "reduce speed to " + n + " knots"
  }

  /** What was stated wrong is negated, what was not stated is asked for. */
  function CorrectionFor(f: Fault, cl: seq<Token>, asMaximum: bool): string {
    (if f.negative then "negative, I say again, " else "read back ") + Expected(f.field, cl, asMaximum)
  }

  function Corrections(faults: seq<Fault>, cl: seq<Token>, asMaximum: bool): (ms: seq<Mismatch>)
    ensures |ms| == |faults| && forall i :: 0 <= i < |ms| ==> ms[i].field == faults[i].field
  {
    if faults == [] then []
    else [Mismatch(faults[0].field, CorrectionFor(faults[0], cl, asMaximum))] + Corrections(faults[1..], cl, asMaximum)
  }

  function Mismatches(v: Vocabulary, lx: Lexis, cl: string, rb: string): seq<Mismatch> {
    Corrections(Check(v, lx, cl, rb), VerifierTokens(v, lx, cl),
                Contains(NoCommas(LowerAll(FrequencyNormaliser.Normalised(v, cl))), "or less"))
  }

  /** The verifier that the dialog consults. */
  function TheVerifier(v: Vocabulary, lx: Lexis): Verifier {
    Verifier(t => FieldsPresent(v, lx, t),
             (c, r) => MatchedFields(v, lx, c, r),
             (c, r) => Mismatches(v, lx, c, r))
  }

  // ── The exchange ────────────────────────────────────────────────────────────

  /** One clearance is owed. */
  predicate OwedOnly(o: Obligations, text: string) {
    o.flag && o.pending == [text] && o.text == text
  }

  /** Speak, read back, verify: the read-back of what the voice said ends the exchange at once. */
  lemma SpokenReadbackEndsTheExchange(v: Vocabulary, lx: Lexis, items: seq<Item>, form: Form, d: Dialog)
    requires Laws(v, lx) && TextItems(v, lx, items) && Spaced(items)
    requires OwedOnly(d.r.owed, Utterance(items, Written))
    ensures var verifier, raw := TheVerifier(v, lx), Utterance(items, form);
            && !AsksAgain(verifier, d, raw) && AcceptReadback(verifier, d, raw) == d.(r := RbClear(d.r))
  {
    var verifier, cl, raw := TheVerifier(v, lx), Utterance(items, Written), Utterance(items, form);
    SpokenClearanceReadBack(v, lx, items, form);
    assert verifier.check(cl, raw) == [];
    OneOwed(verifier, d.r.owed, cl, raw);
  }

  /** What the voice makes of a written text is accepted as its read-back, with the word lists of the source; and it
      is credited with every field exactly when no word "speed" takes digits that are spoken one by one. */
  lemma VoiceIsHeard(items: seq<Item>)
    requires VoiceExpansion.Speakable(FrequencyWords.English(), EnglishLexis(), items)
    ensures var v, lx := FrequencyWords.English(), EnglishLexis();
            var written := Join(Words(items, Written));
            var raw := VoiceExpansion.Voice(Words(items, Written));
            && Check(v, lx, written, raw) == []
            && (MatchedFields(v, lx, written, raw) == FieldsPresent(v, lx, written) <==> SpeedReadsAlike(items))
  {
    var v, lx := FrequencyWords.English(), EnglishLexis();
    EnglishLaws();
    VoiceExpansion.VoiceSpeaksItems(v, lx, items);
    SpokenClearanceReadBack(v, lx, items, Spoken);
  }

  /** The whole loop: the controller's text goes through the three expansions and the frequency speller, the pilot
      repeats what is heard, the verifier finds nothing wrong in it, and the dialog is settled at once. */
  lemma VoiceIsReadBack(items: seq<Item>, d: Dialog)
    requires VoiceExpansion.Speakable(FrequencyWords.English(), EnglishLexis(), items)
    requires OwedOnly(d.r.owed, Join(Words(items, Written)))
    ensures var v, lx := FrequencyWords.English(), EnglishLexis();
            var written := Join(Words(items, Written));
            var raw := VoiceExpansion.Voice(Words(items, Written));
            && Check(v, lx, written, raw) == []
            && (MatchedFields(v, lx, written, raw) == FieldsPresent(v, lx, written) <==> SpeedReadsAlike(items))
            && !AsksAgain(TheVerifier(v, lx), d, raw)
            && AcceptReadback(TheVerifier(v, lx), d, raw) == d.(r := RbClear(d.r))
  {
    var v, lx := FrequencyWords.English(), EnglishLexis();
    EnglishLaws();
    VoiceIsHeard(items);
    VoiceExpansion.VoiceSpeaksItems(v, lx, items);
    SpokenReadbackEndsTheExchange(v, lx, items, Spoken, d);
  }

  lemma OneOwed(verifier: Verifier, o: Obligations, cl: string, raw: string)
    requires OwedOnly(o, cl) && verifier.check(cl, raw) == []
    ensures StillOwed(verifier, o, raw) == []
  {
    OneUnsettled(verifier, cl, o.ok + verifier.matched(cl, raw));
    JoinOne(cl);
  }

  lemma OneUnsettled(verifier: Verifier, cl: string, ok: set<Field>)
    ensures ReadbackQueue.Unsettled(verifier, [cl], ok) == if ReadbackQueue.Settled(verifier, ok, cl) then [] else [cl]
  {
    assert [cl][1..] == [];
  }

  lemma JoinOne(cl: string)
    ensures ReadbackQueue.Join([cl]) == cl
  {
    assert [cl][..0] == [];
  }

  // ── What is challenged ──────────────────────────────────────────────────────

  lemma CodeIsUnmatched(cl: seq<Token>, rb: seq<Token>)
    ensures RunwayFaults(cl, rb) != [] ==> Runway in Present(cl) && Runway !in Matched(cl, rb)
    ensures FrequencyFaults(cl, rb) != [] ==> Frequency in Present(cl) && Frequency !in Matched(cl, rb)
    ensures SquawkFaults(cl, rb) != [] ==> Squawk in Present(cl) && Squawk !in Matched(cl, rb)
  {}

  lemma NumberIsUnmatched(cl: seq<Token>, rb: seq<Token>)
    ensures LevelFaults(cl, rb) != [] ==> FlightLevel in Present(cl) && FlightLevel !in Matched(cl, rb)
    ensures FeetFaults(cl, rb) != [] ==> Altitude in Present(cl) && Altitude !in Matched(cl, rb)
    ensures SpeedFaults(cl, rb) != [] ==> Speed in Present(cl) && Speed !in Matched(cl, rb)
  {}

  /** What is reported is a field of the clearance that is not matched. */
  lemma FaultIsUnmatched(cl: seq<Token>, rb: seq<Token>, f: Field)
    requires Reported(Faults(cl, rb), f)
    ensures f in Present(cl) && f !in Matched(cl, rb)
  {
    ReportedParts(cl, rb, f);
    CodeIsUnmatched(cl, rb);
    NumberIsUnmatched(cl, rb);
  }

  /** The mismatches are about the reported fields. */
  lemma MismatchFields(v: Vocabulary, lx: Lexis, cl: string, rb: string, f: Field)
    ensures (exists m :: m in TheVerifier(v, lx).check(cl, rb) && m.field == f) <==> Reported(Check(v, lx, cl, rb), f)
  {
    var faults := Check(v, lx, cl, rb);
    var ms := TheVerifier(v, lx).check(cl, rb);
    assert |ms| == |faults| && forall i :: 0 <= i < |ms| ==> ms[i].field == faults[i].field;
    if Reported(faults, f) {
      var i :| 0 <= i < |faults| && faults[i].field == f;
      assert ms[i] in ms && ms[i].field == f;
    }
  }

  lemma {:induction false} OutstandingExactly(ms: seq<Mismatch>, ok: set<Field>)
    ensures Outstanding(ms, ok) != [] <==> exists m :: m in ms && m.field !in ok
    decreases |ms|
  {
    if Outstanding(ms, ok) != [] {
      assert Outstanding(ms, ok)[0] in Outstanding(ms, ok);
    }
  }

  /** At the first attempt one clearance is asked for again exactly when a mismatch is left that was not credited before. */
  lemma AskedExactly(verifier: Verifier, d: Dialog, cl: string, raw: string)
    requires OwedOnly(d.r.owed, cl) && cl != "" && (d.failText != cl || d.fails == 0)
    requires forall m :: m in verifier.check(cl, raw) ==>
      m.field in verifier.fields(cl) && m.field !in verifier.matched(cl, raw)
    ensures AsksAgain(verifier, d, raw) <==> exists m :: m in verifier.check(cl, raw) && m.field !in d.r.owed.ok
    ensures AsksAgain(verifier, d, raw) ==> AskAgain(verifier, d, raw).r.owed.pending == [cl]
  {
    var ok := d.r.owed.ok + verifier.matched(cl, raw);
    OneUnsettled(verifier, cl, ok);
    JoinOne(cl);
    OutstandingExactly(verifier.check(cl, raw), ok);
  }

  lemma MismatchesAreUnmatched(v: Vocabulary, lx: Lexis, cl: string, raw: string, m: Mismatch)
    requires m in TheVerifier(v, lx).check(cl, raw)
    ensures m.field in FieldsPresent(v, lx, cl) && m.field !in MatchedFields(v, lx, cl, raw)
  {
    MismatchFields(v, lx, cl, raw, m.field);
    FaultIsUnmatched(VerifierTokens(v, lx, cl), VerifierTokens(v, lx, raw), m.field);
  }

  /** The pilot is asked again, at the first attempt, exactly when a field is wrong that was not credited before; and
      the clearance stays owed. */
  lemma ChallengedExactlyWhenWrong(v: Vocabulary, lx: Lexis, cl: seq<Item>, rb: seq<Item>, form: Form, d: Dialog)
    requires Laws(v, lx) && TextItems(v, lx, cl) && Spaced(cl) && TextItems(v, lx, rb) && Spaced(rb)
    requires OwedOnly(d.r.owed, Utterance(cl, Written))
    requires d.failText != Utterance(cl, Written) || d.fails == 0
    ensures var verifier, raw := TheVerifier(v, lx), Utterance(rb, form);
            && (AsksAgain(verifier, d, raw) <==> rb != [] && exists f :: f !in d.r.owed.ok && Wrong(cl, rb, f, form))
            && (AsksAgain(verifier, d, raw) ==> AskAgain(verifier, d, raw).r.owed.pending == [Utterance(cl, Written)])
  {
    var verifier, text, raw := TheVerifier(v, lx), Utterance(cl, Written), Utterance(rb, form);
    WrongItemIsReported(v, lx, cl, rb, form);
    forall m | m in verifier.check(text, raw)
      ensures m.field in verifier.fields(text) && m.field !in verifier.matched(text, raw)
    {
      MismatchesAreUnmatched(v, lx, text, raw, m);
    }
    forall f
      ensures (exists m :: m in verifier.check(text, raw) && m.field == f) <==> rb != [] && Wrong(cl, rb, f, form)
    {
      MismatchFields(v, lx, text, raw, f);
    }
    if text == "" {
      assert verifier.check(text, raw) == [];
    } else {
      AskedExactly(verifier, d, text, raw);
    }
  }
}
